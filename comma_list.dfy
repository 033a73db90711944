/**
  The string handling behind the entitlements field of the profile-override form:
  JavaScript's `text.split(',')` followed by `.map(e => e.trim())`.

  `Split` is the split on a one-character separator (an empty string gives one empty piece),
  `Join` is its inverse `pieces.join(',')`, and `Trim` removes the characters that
  ECMAScript's `String.prototype.trim` removes (WhiteSpace and LineTerminator code points).
 */
module CommaList {

  /** The code points ECMAScript counts as WhiteSpace or LineTerminator: TAB, LF, VT, FF, CR,
      SPACE, NBSP, the space separators of Unicode category Zs, LS, PS and the BOM. */
  function IsTrimmable(c: char): (r: bool)
    ensures c == ' ' || c == '\t' || c == '\n' || c == '\r' ==> r
    ensures r ==> c != ',' && (c as int) <= 0xFEFF
  {
    var n := c as int;
    n == 0x09 || n == 0x0A || n == 0x0B || n == 0x0C || n == 0x0D || n == 0x20 || n == 0xA0
    || n == 0x1680 || (0x2000 <= n <= 0x200A) || n == 0x2028 || n == 0x2029 || n == 0x202F
    || n == 0x205F || n == 0x3000 || n == 0xFEFF
  }

  /** Neither the first nor the last character of `s` is trimmable. */
  predicate NoEdgeSpace(s: string) {
    s == [] || (!IsTrimmable(s[0]) && !IsTrimmable(s[|s| - 1]))
  }

  /** Number of occurrences of `c` in `s`. */
  function Count(s: string, c: char): nat {
    if s == [] then 0 else (if s[0] == c then 1 else 0) + Count(s[1..], c)
  }

  /** `s.split(',')`: the maximal comma-free pieces between the commas of `s`. */
  function Split(s: string): (pieces: seq<string>)
    ensures |pieces| >= 1
    ensures forall i :: 0 <= i < |pieces| ==> ',' !in pieces[i]
  {
    if s == [] then [""]
    else
      var rest := Split(s[1..]);
      if s[0] == ',' then [""] + rest
      else [[s[0]] + rest[0]] + rest[1..]
  }

  /** `pieces.join(',')`. */
  function Join(pieces: seq<string>): string {
    if pieces == [] then ""
    else if |pieces| == 1 then pieces[0]
    else pieces[0] + "," + Join(pieces[1..])
  }

  /** Leading trimmable characters removed: the result is a suffix of `s`, everything cut off is
      trimmable, and the result does not itself start with a trimmable character. */
  function TrimStart(s: string): (r: string)
    ensures |r| <= |s| && r == s[|s| - |r|..]
    ensures forall m :: 0 <= m < |s| - |r| ==> IsTrimmable(s[m])
    ensures r == [] || !IsTrimmable(r[0])
  {
    if s != [] && IsTrimmable(s[0]) then TrimStart(s[1..]) else s
  }

  /** Trailing trimmable characters removed: the result is a prefix of `s`, everything cut off is
      trimmable, and the result does not itself end with a trimmable character. */
  function TrimEnd(s: string): (r: string)
    ensures |r| <= |s| && r == s[..|r|]
    ensures forall m :: |r| <= m < |s| ==> IsTrimmable(s[m])
    ensures r == [] || !IsTrimmable(r[|r| - 1])
  {
    if s != [] && IsTrimmable(s[|s| - 1]) then TrimEnd(s[..|s| - 1]) else s
  }

  /** `s.trim()`. */
  function Trim(s: string): (r: string)
    ensures |r| <= |s|
    ensures NoEdgeSpace(r)
  {
    var t := TrimStart(s);
    var r := TrimEnd(t);
    assert r != [] ==> r[0] == t[0];
    r
  }

  /** `text.split(',').map(e => e.trim())`, the entitlement list the override form submits:
      one entry per comma plus one, entry `i` the trimmed `i`-th piece, and no entry holding a
      comma or starting or ending with whitespace. */
  function ParseEntitlements(text: string): (entries: seq<string>)
    ensures |entries| == Count(text, ',') + 1
    ensures forall e :: e in entries ==> NoEdgeSpace(e) && ',' !in e
    ensures |entries| == |Split(text)|
    ensures forall i :: 0 <= i < |entries| ==> entries[i] == Trim(Split(text)[i])
  {
    SplitCount(text);
    var pieces := Split(text);
    seq(|pieces|, i requires 0 <= i < |pieces| => Trim(pieces[i]))
  }

  // ---------------------------------------------------------------- split and join

  /** `split` yields exactly one more piece than there are commas. */
  lemma {:induction false} SplitCount(s: string)
    ensures |Split(s)| == Count(s, ',') + 1
  {
    if s != [] {
      SplitCount(s[1..]);
    }
  }

  /** Joining the untrimmed pieces back with ',' reproduces the original text. */
  lemma {:induction false} JoinSplit(s: string)
    ensures Join(Split(s)) == s
  {
    if s != [] {
      var rest := Split(s[1..]);
      JoinSplit(s[1..]);
      if s[0] == ',' {
        assert Split(s) == [""] + rest;
        assert ([""] + rest)[1..] == rest;
        assert s == "" + "," + s[1..];
      } else if |rest| == 1 {
        assert Split(s) == [[s[0]] + rest[0]];
        assert s == [s[0]] + s[1..];
      } else {
        var p := [[s[0]] + rest[0]] + rest[1..];
        assert Split(s) == p;
        assert p[1..] == rest[1..];
        assert Join(rest) == rest[0] + "," + Join(rest[1..]);
        assert s == [s[0]] + s[1..];
        assert Join(p) == ([s[0]] + rest[0]) + "," + Join(rest[1..]);
      }
    }
  }

  /** Splitting `a + t` where `a` holds no comma glues `a` onto the first piece of `t`. */
  lemma {:induction false} SplitPrefix(a: string, t: string)
    requires ',' !in a
    ensures Split(a + t) == [a + Split(t)[0]] + Split(t)[1..]
  {
    if a == [] {
      assert a + t == t;
      assert a + Split(t)[0] == Split(t)[0];
      assert [Split(t)[0]] + Split(t)[1..] == Split(t);
    } else {
      assert (a + t)[1..] == a[1..] + t;
      assert (a + t)[0] == a[0];
      SplitPrefix(a[1..], t);
      assert [a[0]] + (a[1..] + Split(t)[0]) == a + Split(t)[0];
    }
  }

  /** Splitting a join of comma-free pieces gives the pieces back. */
  lemma {:induction false} SplitJoin(pieces: seq<string>)
    requires |pieces| >= 1
    requires forall i :: 0 <= i < |pieces| ==> ',' !in pieces[i]
    ensures Split(Join(pieces)) == pieces
  {
    var a := pieces[0];
    if |pieces| == 1 {
      SplitPrefix(a, "");
      assert a + "" == a;
    } else {
      var t := Join(pieces[1..]);
      SplitJoin(pieces[1..]);
      assert Join(pieces) == a + ("," + t);
      SplitPrefix(a, "," + t);
      assert ("," + t)[1..] == t;
      assert Split("," + t) == [""] + Split(t);
      assert a + "" == a;
      assert pieces == [a] + pieces[1..];
    }
  }

  // ---------------------------------------------------------------- trim

  /** `TrimStart` stops at the first non-trimmable character. */
  lemma TrimStartAt(s: string, i: nat)
    requires i <= |s| && forall m :: 0 <= m < i ==> IsTrimmable(s[m])
    requires i == |s| || !IsTrimmable(s[i])
    ensures TrimStart(s) == s[i..]
  {
  }

  /** `TrimEnd` stops after the last non-trimmable character. */
  lemma TrimEndAt(t: string, e: nat)
    requires e <= |t| && forall m :: e <= m < |t| ==> IsTrimmable(t[m])
    requires e == 0 || !IsTrimmable(t[e - 1])
    ensures TrimEnd(t) == t[..e]
  {
  }

  /** Trimming the end of the suffix `s[i..]` stops after the last non-trimmable character. */
  lemma TrimEndOfSuffix(s: string, i: nat, j: nat)
    requires i < j <= |s|
    requires forall m :: j <= m < |s| ==> IsTrimmable(s[m])
    requires !IsTrimmable(s[j - 1])
    ensures TrimEnd(s[i..]) == s[i..j]
  {
    var t := s[i..];
    TrimEndAt(t, j - i);
    assert t[..j - i] == s[i..j];
  }

  /** `Trim` is characterised independently of how it is computed: whenever `s` is split as
      `s[..i] + s[i..j] + s[j..]` with both outer parts trimmable and the middle part without a
      trimmable character at either end, `Trim(s)` is that middle part. */
  lemma TrimUnique(s: string, i: nat, j: nat)
    requires i <= j <= |s|
    requires forall m :: 0 <= m < i ==> IsTrimmable(s[m])
    requires forall m :: j <= m < |s| ==> IsTrimmable(s[m])
    requires i == j || (!IsTrimmable(s[i]) && !IsTrimmable(s[j - 1]))
    ensures Trim(s) == s[i..j]
  {
    if i == j {
      TrimStartAt(s, |s|);
    } else {
      TrimStartAt(s, i);
      TrimEndOfSuffix(s, i, j);
    }
  }

  /** A string without trimmable characters at its ends is its own trim. */
  lemma TrimOfNoEdgeSpace(s: string)
    requires NoEdgeSpace(s)
    ensures Trim(s) == s
  {
    assert s[0..|s|] == s;
    TrimUnique(s, 0, |s|);
  }

  /** Trimming twice is trimming once. */
  lemma TrimIdempotent(s: string)
    ensures Trim(Trim(s)) == Trim(s)
  {
    TrimOfNoEdgeSpace(Trim(s));
  }

  // ---------------------------------------------------------------- the documented examples

  /** `"a, b ,c".split(',')` is `["a", " b ", "c"]`. */
  lemma SplitExample()
    ensures Split("a, b ,c") == ["a", " b ", "c"]
  {
    var pieces := ["a", " b ", "c"];
    assert Join(pieces[2..]) == "c";
    assert Join(pieces[1..]) == " b ,c";
    assert Join(pieces) == "a, b ,c";
    SplitJoin(pieces);
  }

  /** `" b ".trim()` is `"b"`. */
  lemma TrimExample()
    ensures Trim(" b ") == "b"
  {
    var b := " b ";
    assert b[1..2] == "b";
    TrimUnique(b, 1, 2);
  }

  /** A text that splits into three pieces gives their three trims. */
  lemma ParseThreePieces(text: string, x: string, y: string, z: string, tx: string, ty: string, tz: string)
    requires Split(text) == [x, y, z]
    requires Trim(x) == tx && Trim(y) == ty && Trim(z) == tz
    ensures ParseEntitlements(text) == [tx, ty, tz]
  {
    var entries := ParseEntitlements(text);
    assert |entries| == 3;
    assert entries[0] == tx && entries[1] == ty && entries[2] == tz;
    SeqOfThree(entries, tx, ty, tz);
  }

  lemma SeqOfThree(s: seq<string>, x: string, y: string, z: string)
    requires |s| == 3 && s[0] == x && s[1] == y && s[2] == z
    ensures s == [x, y, z]
  {
  }

  /** `"a, b ,c"` gives `["a", "b", "c"]`. */
  lemma ParseEntitlementsExample()
    ensures ParseEntitlements("a, b ,c") == ["a", "b", "c"]
  {
    SplitExample();
    TrimExample();
    TrimOfNoEdgeSpace("a");
    TrimOfNoEdgeSpace("c");
    ParseThreePieces("a, b ,c", "a", " b ", "c", "a", "b", "c");
  }

  /** An empty entitlements text gives a list holding one empty entry. */
  lemma ParseEntitlementsEmpty()
    ensures ParseEntitlements("") == [""]
  {
    TrimOfNoEdgeSpace("");
  }
}
