/** The string operations the models and controllers rely on: the `trim`
    setter of a schema path, lower-casing for the slug, and the extension
    `path.parse(name).ext` that the photo upload keeps. */
module Text {
  import opened Common

  /** The characters `String.prototype.trim` strips that this model knows of. */
  predicate IsSpace(c: char) {
    || c == ' ' || c == '\t' || c == '\n' || c == '\r'
    || c == '\U{000B}' || c == '\U{000C}' || c == '\U{00A0}'
    || c == '\U{FEFF}' || c == '\U{2028}' || c == '\U{2029}'
  }

  function TrimStart(s: string): (r: string)
    ensures |r| <= |s| && r == s[|s| - |r|..]
    ensures forall i :: 0 <= i < |s| - |r| ==> IsSpace(s[i])
    ensures r != [] ==> !IsSpace(r[0])
  {
    if s != [] && IsSpace(s[0]) then TrimStart(s[1..]) else s
  }

  function TrimEnd(s: string): (r: string)
    ensures |r| <= |s| && r == s[..|r|]
    ensures forall i :: |r| <= i < |s| ==> IsSpace(s[i])
    ensures r != [] ==> !IsSpace(r[|r| - 1])
  {
    if s != [] && IsSpace(s[|s| - 1]) then TrimEnd(s[..|s| - 1]) else s
  }

  /** The `trim: true` setter: the value without its leading and trailing white space. */
  function Trim(s: string): (r: string)
    ensures |r| <= |s|
    ensures Trimmed(r)
  {
    TrimEnd(TrimStart(s))
  }

  /** No white space at either end: what the `trim` setter leaves behind. */
  predicate Trimmed(s: string) {
    s == [] || (!IsSpace(s[0]) && !IsSpace(s[|s| - 1]))
  }

  /** What trimming removes is white space, from both ends only. */
  lemma TrimPadded(s: string)
    ensures exists i :: Padded(s, Trim(s), i)
  {
    var t := TrimStart(s);
    var r := TrimEnd(t);
    var i := |s| - |t|;
    assert r == s[i..i + |r|] by {
      assert t == s[i..];
      assert r == t[..|r|];
    }
    assert Trim(s) == r;
    assert Padded(s, r, i);
  }

  /** `s` is `r` with white space only before it (up to position `i`) and after it. */
  predicate Padded(s: string, r: string, i: int) {
    && 0 <= i <= |s| - |r|
    && r == s[i..i + |r|]
    && (forall j :: 0 <= j < i ==> IsSpace(s[j]))
    && (forall j :: i + |r| <= j < |s| ==> IsSpace(s[j]))
  }

  /** A string is blank after trimming exactly when it is white space only,
      so a `required` trimmed path refuses white-space-only values. */
  lemma TrimEmpty(s: string)
    ensures Trim(s) == [] <==> forall i :: 0 <= i < |s| ==> IsSpace(s[i])
  {
    var t := TrimStart(s);
    assert forall k :: 0 <= k < |t| ==> t[k] == s[|s| - |t| + k];
  }

  /** Trimming a value without white space at its ends changes nothing; in
      particular trimming is idempotent, so re-saving a stored name keeps it. */
  lemma TrimmedFixed(s: string)
    ensures Trimmed(s) <==> Trim(s) == s
  {
    if Trimmed(s) {
      assert TrimStart(s) == s;
      assert TrimEnd(s) == s;
    }
  }

  /** A character outside the Basic Multilingual Plane, which UTF-16 stores as a
      surrogate pair. */
  predicate IsAstral(c: char) {
    c as int > 0xFFFF
  }

  /** `String.prototype.length`, which `maxlength` compares: UTF-16 code units,
      two for each character beyond U+FFFF. */
  function Utf16Length(s: string): (n: nat)
    ensures |s| <= n <= 2 * |s|
    ensures (forall i :: 0 <= i < |s| ==> !IsAstral(s[i])) ==> n == |s|
  {
    if s == [] then 0 else (if IsAstral(s[0]) then 2 else 1) + Utf16Length(s[1..])
  }

  /** A string made only of characters beyond U+FFFF is twice as long in UTF-16. */
  lemma {:induction false} Utf16LengthAllAstral(s: string)
    requires forall i :: 0 <= i < |s| ==> IsAstral(s[i])
    ensures Utf16Length(s) == 2 * |s|
  {
    if s != [] {
      assert forall i :: 0 <= i < |s[1..]| ==> s[1..][i] == s[i + 1];
      Utf16LengthAllAstral(s[1..]);
    }
  }

  predicate IsUpper(c: char) {
    'A' <= c <= 'Z'
  }

  function LowerChar(c: char): char {
    if IsUpper(c) then (c as int - 'A' as int + 'a' as int) as char else c
  }

  /** `toLowerCase`, on the ASCII letters. */
  function Lower(s: string): (r: string)
    ensures |r| == |s|
    ensures forall i :: 0 <= i < |r| ==> !IsUpper(r[i])
    ensures forall i :: 0 <= i < |s| && !IsUpper(s[i]) ==> r[i] == s[i]
    ensures forall i :: 0 <= i < |s| && IsUpper(s[i]) ==> r[i] as int == s[i] as int - 'A' as int + 'a' as int
  {
    if s == [] then [] else [LowerChar(s[0])] + Lower(s[1..])
  }

  /** The position of the last `c` in `s`, if any. */
  function LastIndex(s: string, c: char): (r: Option<nat>)
    ensures r.Some? ==> r.value < |s| && s[r.value] == c && c !in s[r.value + 1..]
    ensures r.None? <==> c !in s
  {
    if s == [] then None
    else if s[|s| - 1] == c then Some(|s| - 1)
    else
      var r := LastIndex(s[..|s| - 1], c);
      assert s == s[..|s| - 1] + [s[|s| - 1]];
      r
  }

  /** A path without its trailing separators, as `path.parse` reads it. */
  function DropTrailingSlashes(p: string): (r: string)
    ensures |r| <= |p| && r == p[..|r|]
    ensures forall i :: |r| <= i < |p| ==> p[i] == '/'
    ensures r == [] || r[|r| - 1] != '/'
  {
    if p != [] && p[|p| - 1] == '/' then DropTrailingSlashes(p[..|p| - 1]) else p
  }

  /** `path.parse(p).base`: the last component of the path. */
  function Basename(p: string): (b: string)
    ensures '/' !in b
    ensures '/' !in p ==> b == p
    ensures var q := DropTrailingSlashes(p);
      |b| <= |q| && b == q[|q| - |b|..] && (|b| == |q| || q[|q| - |b| - 1] == '/')
  {
    var q := DropTrailingSlashes(p);
    assert |q| < |p| ==> p[|q|] == '/';
    match LastIndex(q, '/')
    case None => q
    case Some(k) => q[k + 1..]
  }

  /** `path.parse(p).ext`: from the last dot of the base name to its end; empty
      when the base name has no dot after its first character, or is `..`. */
  function Ext(p: string): (e: string)
    ensures var b := Basename(p);
      && (e == [] <==> b == ".." || forall i :: 0 < i < |b| ==> b[i] != '.')
      && (e != [] ==> |e| < |b| && e == b[|b| - |e|..])
    ensures e != [] ==> e[0] == '.' && '.' !in e[1..]
    ensures '/' !in e
  {
    var b := Basename(p);
    BaseExt(b)
  }

  /** The extension of a base name. */
  function BaseExt(b: string): (e: string)
    ensures e == [] <==> b == ".." || forall i :: 0 < i < |b| ==> b[i] != '.'
    ensures e != [] ==> |e| < |b| && e == b[|b| - |e|..] && e[0] == '.' && '.' !in e[1..]
  {
    match LastIndex(b, '.')
    case None => []
    case Some(d) =>
      if d == 0 || b == ".." then []
      else
        assert b[d..][1..] == b[d + 1..];
        b[d..]
  }

  lemma ExtExample1()
    ensures Ext("team.jpg") == ".jpg"
  {
    assert "team.jpg" == "team" + ".jpg";
    ExtOfAppended("team", ".jpg");
  }

  lemma ExtExample2()
    ensures Ext(".profile") == ""
  {
    assert ".profile" == "." + "profile";
    ExtOfDotFile("profile");
  }

  /** A base name whose only dot is its first character has no extension. */
  lemma ExtOfDotFile(a: string)
    requires '.' !in a && '/' !in a
    ensures Ext("." + a) == ""
  {
    var s := "." + a;
    NotInAppended(".", a, '/');
    assert Basename(s) == s;
    LastDotAt("", s);
    assert "" + s == s;
  }

  lemma ExtExample3()
    ensures Ext("a/b.c") == ".c"
  {
    LastIndexAt("a/b.c", '/', 1);
    assert Basename("a/b.c") == "b.c";
    LastIndexAt("b.c", '.', 1);
  }

  /** The last `c` is the one with no `c` after it. */
  lemma LastIndexAt(s: string, c: char, i: nat)
    requires i < |s| && s[i] == c && c !in s[i + 1..]
    ensures LastIndex(s, c) == Some(i)
  {
    assert s[i] in s;
    var d := LastIndex(s, c).value;
    assert forall j :: i < j < |s| ==> s[j] == s[i + 1..][j - i - 1];
    assert forall j :: d < j < |s| ==> s[j] == s[d + 1..][j - d - 1];
  }

  lemma NotInAppended(x: string, y: string, c: char)
    requires c !in x && c !in y
    ensures c !in x + y
  {
    assert forall i :: |x| <= i < |x + y| ==> (x + y)[i] == y[i - |x|];
  }

  /** A base name without dots followed by an extension has that extension. */
  lemma ExtOfAppended(a: string, e: string)
    requires a != [] && a[0] != '.' && '.' !in a && '/' !in a && '/' !in e
    requires e == [] || (e[0] == '.' && '.' !in e[1..])
    ensures Ext(a + e) == e
  {
    var s := a + e;
    assert Basename(s) == s;
    if e == [] {
      assert s == a;
    } else {
      LastDotAt(a, e);
      assert s[|a|..] == e;
    }
  }

  lemma LastDotAt(a: string, e: string)
    requires '.' !in a && e != [] && e[0] == '.' && '.' !in e[1..]
    ensures LastIndex(a + e, '.') == Some(|a|)
  {
    assert (a + e)[|a| + 1..] == e[1..];
    LastIndexAt(a + e, '.', |a|);
  }
}
