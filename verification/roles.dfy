/** The role resolver: `isAdminPerfil` accepts a role value of any JavaScript
    shape (a string, an array, null, ...), normalises each candidate string by
    trimming and lowercasing it, and tests it against a fixed set of admin
    markers. Malformed input degrades to "not admin". */
module Roles {

  /** The JavaScript values a role can arrive as. Numbers, booleans and objects
      all behave alike here (they are never admin markers), so they share
      `Other`. */
  datatype JsVal = Undefined | Null | Str(s: string) | Arr(items: seq<JsVal>) | Other

  /** The fixed admin-marker set. */
  const AdminMarkers: set<string> := {"admin", "administrador", "adm"}

  /** The code points `String.prototype.trim` removes: ECMAScript WhiteSpace
      (including the Unicode space separators) and LineTerminator. */
  predicate IsSpace(c: char) {
    || c == ' ' || c == '\t' || c == '\n' || c == '\U{000B}' || c == '\U{000C}' || c == '\r'
    || c == '\U{00A0}' || c == '\U{1680}' || ('\U{2000}' <= c <= '\U{200A}')
    || c == '\U{2028}' || c == '\U{2029}' || c == '\U{202F}' || c == '\U{205F}'
    || c == '\U{3000}' || c == '\U{FEFF}'
  }

  predicate AllSpace(w: string) {
    forall i :: 0 <= i < |w| ==> IsSpace(w[i])
  }

  /** `trimStart`: leading white space removed. */
  function TrimStart(s: string): string {
    if s != [] && IsSpace(s[0]) then TrimStart(s[1..]) else s
  }

  /** `trimEnd`: trailing white space removed. */
  function TrimEnd(s: string): string {
    if s != [] && IsSpace(s[|s| - 1]) then TrimEnd(s[..|s| - 1]) else s
  }

  /** `String.prototype.trim`. */
  function Trim(s: string): string {
    TrimEnd(TrimStart(s))
  }

  /** What `trimStart` keeps is a suffix starting with a non-space
      character, and what it drops is all white space. */
  lemma {:induction false} TrimStartSpec(s: string)
    ensures |TrimStart(s)| <= |s| && TrimStart(s) == s[|s| - |TrimStart(s)|..]
    ensures AllSpace(s[..|s| - |TrimStart(s)|])
    ensures TrimStart(s) == [] || !IsSpace(TrimStart(s)[0])
  {
    if s != [] && IsSpace(s[0]) {
      var r := TrimStart(s[1..]);
      assert TrimStart(s) == r;
      TrimStartSpec(s[1..]);
      assert s[1..][|s| - 1 - |r|..] == s[|s| - |r|..];
      assert s[..|s| - |r|] == [s[0]] + s[1..][..|s| - 1 - |r|];
      AllSpaceConcat([s[0]], s[1..][..|s| - 1 - |r|]);
    }
  }

  /** What `trimEnd` keeps is a prefix ending with a non-space character,
      and what it drops is all white space. */
  lemma {:induction false} TrimEndSpec(s: string)
    ensures |TrimEnd(s)| <= |s| && TrimEnd(s) == s[..|TrimEnd(s)|]
    ensures AllSpace(s[|TrimEnd(s)|..])
    ensures TrimEnd(s) == [] || !IsSpace(TrimEnd(s)[|TrimEnd(s)| - 1])
  {
    if s != [] && IsSpace(s[|s| - 1]) {
      var r := TrimEnd(s[..|s| - 1]);
      assert TrimEnd(s) == r;
      TrimEndSpec(s[..|s| - 1]);
      assert s[..|s| - 1][..|r|] == s[..|r|];
      assert s[|r|..] == s[..|s| - 1][|r|..] + [s[|s| - 1]];
      AllSpaceConcat(s[..|s| - 1][|r|..], [s[|s| - 1]]);
    }
  }

  /** How many leading white-space characters `trim` drops. */
  function LeadingSpace(s: string): nat {
    TrimStartSpec(s);
    |s| - |TrimStart(s)|
  }

  /** `trim` returns the infix of `s` that starts after its leading white
      space and has no white space at either end; everything before and
      after it is white space. */
  lemma TrimSpec(s: string)
    ensures LeadingSpace(s) + |Trim(s)| <= |s|
    ensures AllSpace(s[..LeadingSpace(s)])
    ensures Trim(s) == s[LeadingSpace(s)..LeadingSpace(s) + |Trim(s)|]
    ensures AllSpace(s[LeadingSpace(s) + |Trim(s)|..])
    ensures Trim(s) == [] || (!IsSpace(Trim(s)[0]) && !IsSpace(Trim(s)[|Trim(s)| - 1]))
  {
    var t := TrimStart(s);
    TrimStartSpec(s);
    TrimEndSpec(t);
    InfixOfSuffix(s, t, TrimEnd(t));
  }

  /** A prefix `r` of a suffix `t` of `s` is an infix of `s`, and what
      follows `r` in `t` is what follows it in `s`. */
  lemma InfixOfSuffix(s: string, t: string, r: string)
    requires |t| <= |s| && t == s[|s| - |t|..]
    requires |r| <= |t| && r == t[..|r|]
    requires AllSpace(t[|r|..])
    ensures s[|s| - |t|..|s| - |t| + |r|] == r
    ensures AllSpace(s[|s| - |t| + |r|..])
  {
    var k := |s| - |t|;
    assert s[k + |r|..] == t[|r|..];
  }

  /** `toLowerCase` restricted to the ASCII letters. */
  function LowerChar(c: char): char {
    if 'A' <= c <= 'Z' then (c as int + 32) as char else c
  }

  function Lower(s: string): string {
    seq(|s|, i requires 0 <= i < |s| => LowerChar(s[i]))
  }

  /** `normalize` in `isAdminPerfil`: strings are trimmed then lowercased,
      every other value passes through unchanged. */
  function Normalize(v: JsVal): JsVal {
    if v.Str? then Str(Lower(Trim(v.s))) else v
  }

  /** `admins.has(x)`: a Set of strings holds no value of another type. */
  predicate IsMarker(v: JsVal) {
    v.Str? && v.s in AdminMarkers
  }

  /** The test `isAdminPerfil` applies to each element of a role array. */
  predicate CountsAsAdmin(v: JsVal) {
    IsMarker(Normalize(v))
  }

  /** `Array.prototype.some`. */
  predicate Some(items: seq<JsVal>, f: JsVal -> bool) {
    items != [] && (f(items[0]) || Some(items[1..], f))
  }

  /** `isAdminPerfil(perfil)`. */
  predicate IsAdminPerfil(perfil: JsVal) {
    match perfil
    case Arr(items) => Some(items, CountsAsAdmin)
    case Str(_) => IsMarker(Normalize(perfil))
    case _ => false
  }

  // ---------------------------------------------------------------------
  // Properties of the role resolver

  /** `some` holds exactly when one element passes the test. */
  lemma {:induction false} SomeIff(items: seq<JsVal>, f: JsVal -> bool)
    ensures Some(items, f) <==> exists i :: 0 <= i < |items| && f(items[i])
  {
    if items != [] {
      SomeIff(items[1..], f);
      if Some(items[1..], f) {
        var i :| 0 <= i < |items[1..]| && f(items[1..][i]);
        assert f(items[i + 1]);
      }
      if exists i :: 0 <= i < |items| && f(items[i]) {
        var i :| 0 <= i < |items| && f(items[i]);
        if i > 0 {
          assert f(items[1..][i - 1]);
        }
      }
    }
  }

  /** Only strings count as admin inside an array, and a string counts
      exactly when it is admin on its own. */
  lemma CountsAsAdminIff(v: JsVal)
    ensures CountsAsAdmin(v) <==> v.Str? && IsAdminPerfil(v)
  {
  }

  /** An array is admin exactly when one of its elements is an admin string;
      nested arrays and non-strings inside it never count. */
  lemma ArrayAdminIff(items: seq<JsVal>)
    ensures IsAdminPerfil(Arr(items)) <==> exists i :: 0 <= i < |items| && CountsAsAdmin(items[i])
  {
    SomeIff(items, CountsAsAdmin);
  }

  /** Concatenating role arrays ors their admin status. */
  lemma {:induction false} ArrayAdminAppend(a: seq<JsVal>, b: seq<JsVal>)
    ensures IsAdminPerfil(Arr(a + b)) <==> IsAdminPerfil(Arr(a)) || IsAdminPerfil(Arr(b))
  {
    if a != [] {
      assert (a + b)[0] == a[0];
      assert (a + b)[1..] == a[1..] + b;
      ArrayAdminAppend(a[1..], b);
    } else {
      assert a + b == b;
    }
  }

  lemma {:induction false} TrimStartPadded(w: string, t: string)
    requires AllSpace(w)
    requires t == [] || !IsSpace(t[0])
    ensures TrimStart(w + t) == t
  {
    if w == [] {
      assert w + t == t;
    } else {
      assert (w + t)[0] == w[0];
      assert (w + t)[1..] == w[1..] + t;
      TrimStartPadded(w[1..], t);
    }
  }

  lemma {:induction false} TrimEndPadded(t: string, w: string)
    requires AllSpace(w)
    requires t == [] || !IsSpace(t[|t| - 1])
    ensures TrimEnd(t + w) == t
  {
    if w == [] {
      assert t + w == t;
    } else {
      var n := |t + w|;
      assert (t + w)[n - 1] == w[|w| - 1];
      assert (t + w)[..n - 1] == t + w[..|w| - 1];
      TrimEndPadded(t, w[..|w| - 1]);
    }
  }

  /** Trimming undoes any white-space padding around a string whose ends are
      not white space: the infix `Trim` returns is unique. */
  lemma TrimOfPadded(w1: string, u: string, w2: string)
    requires AllSpace(w1) && AllSpace(w2)
    requires u == [] || (!IsSpace(u[0]) && !IsSpace(u[|u| - 1]))
    ensures Trim(w1 + u + w2) == u
  {
    if u == [] {
      assert w1 + u + w2 == w1 + w2;
      assert AllSpace(w1 + w2);
      TrimStartPadded(w1 + w2, []);
      assert w1 + w2 + [] == w1 + w2;
    } else {
      assert w1 + u + w2 == w1 + (u + w2);
      TrimStartPadded(w1, u + w2);
      TrimEndPadded(u, w2);
    }
  }

  /** White space on both sides of a string is all white space. */
  lemma AllSpaceConcat(a: string, b: string)
    requires AllSpace(a) && AllSpace(b)
    ensures AllSpace(a + b)
  {
    forall i | 0 <= i < |a + b|
      ensures IsSpace((a + b)[i])
    {
      if i < |a| {
        assert (a + b)[i] == a[i];
      } else {
        assert (a + b)[i] == b[i - |a|];
      }
    }
  }

  /** A string is its leading white space, its trimmed infix and its
      trailing white space, in that order. */
  lemma TrimSplits(s: string)
    ensures LeadingSpace(s) + |Trim(s)| <= |s|
    ensures s == s[..LeadingSpace(s)] + Trim(s) + s[LeadingSpace(s) + |Trim(s)|..]
  {
    var k, r := LeadingSpace(s), Trim(s);
    TrimSpec(s);
    Split3(s, k, k + |r|);
  }

  lemma Split3(s: string, i: nat, j: nat)
    requires i <= j <= |s|
    ensures s == s[..i] + s[i..j] + s[j..]
  {
  }

  lemma Regroup(w1: string, x: string, r: string, y: string, w2: string)
    ensures w1 + (x + r + y) + w2 == (w1 + x) + r + (y + w2)
  {
  }

  /** Trimming ignores any white-space padding. */
  lemma TrimIgnoresPadding(w1: string, s: string, w2: string)
    requires AllSpace(w1) && AllSpace(w2)
    ensures Trim(w1 + s + w2) == Trim(s)
  {
    var r := Trim(s);
    var k := LeadingSpace(s);
    TrimSpec(s);
    var x, y := s[..k], s[k + |r|..];
    TrimSplits(s);
    AllSpaceConcat(w1, x);
    AllSpaceConcat(y, w2);
    Regroup(w1, x, r, y, w2);
    TrimOfPadded(w1 + x, r, y + w2);
  }

  /** Padding a role string with white space never changes its admin status. */
  lemma PaddingIrrelevant(w1: string, s: string, w2: string)
    requires AllSpace(w1) && AllSpace(w2)
    ensures IsAdminPerfil(Str(w1 + s + w2)) == IsAdminPerfil(Str(s))
  {
    TrimIgnoresPadding(w1, s, w2);
  }

  /** The ASCII letters of a marker come only from themselves or their
      upper-case forms, never from white space. */
  lemma LowerMarkerEnds(u: string)
    requires Lower(u) in AdminMarkers
    ensures u != [] && !IsSpace(u[0]) && !IsSpace(u[|u| - 1])
  {
    var l := Lower(u);
    assert l == "admin" || l == "administrador" || l == "adm";
    assert l[0] == 'a';
    assert LowerChar(u[0]) == 'a';
    assert l[|l| - 1] == 'n' || l[|l| - 1] == 'r' || l[|l| - 1] == 'm';
    assert LowerChar(u[|u| - 1]) == l[|l| - 1];
  }

  /** An independent statement of which strings are admin: exactly those that
      are a marker, in any mix of ASCII case, surrounded by white space. */
  ghost predicate PaddedMarker(s: string) {
    exists k, l :: 0 <= k <= l <= |s| && AllSpace(s[..k]) && AllSpace(s[l..]) && Lower(s[k..l]) in AdminMarkers
  }

  lemma AdminStringPadded(s: string)
    requires IsAdminPerfil(Str(s))
    ensures PaddedMarker(s)
  {
    var r := Trim(s);
    var k := LeadingSpace(s);
    TrimSpec(s);
    assert s[k..k + |r|] == r;
    assert Lower(s[k..k + |r|]) in AdminMarkers;
  }

  lemma PaddedAdminString(s: string)
    requires PaddedMarker(s)
    ensures IsAdminPerfil(Str(s))
  {
    var k, l :| 0 <= k <= l <= |s| && AllSpace(s[..k]) && AllSpace(s[l..]) && Lower(s[k..l]) in AdminMarkers;
    LowerMarkerEnds(s[k..l]);
    assert s == s[..k] + s[k..l] + s[l..];
    TrimOfPadded(s[..k], s[k..l], s[l..]);
  }

  lemma AdminStringIff(s: string)
    ensures IsAdminPerfil(Str(s)) <==> PaddedMarker(s)
  {
    if IsAdminPerfil(Str(s)) {
      AdminStringPadded(s);
    }
    if PaddedMarker(s) {
      PaddedAdminString(s);
    }
  }

  /** A string with no white space at its ends is left alone by `trim`. */
  lemma TrimUnpadded(u: string)
    requires u == [] || (!IsSpace(u[0]) && !IsSpace(u[|u| - 1]))
    ensures Trim(u) == u
  {
    assert [] + u + [] == u;
    TrimOfPadded([], u, []);
  }

  lemma TrimExamples()
    ensures Trim("adm") == "adm" && Trim("ADMIN") == "ADMIN"
  {
    TrimUnpadded("adm");
    TrimUnpadded("ADMIN");
  }

  lemma PaddedTrimExample()
    ensures Trim(" ADMIN ") == "ADMIN"
  {
    var s := " ADMIN ";
    assert s[..1] == " " && s[1..6] == "ADMIN" && s[6..] == " ";
    Split3(s, 1, 6);
    TrimOfPadded(s[..1], s[1..6], s[6..]);
  }

  lemma LowerExamples()
    ensures Lower("adm") == "adm" && Lower("ADMIN") == "admin"
  {
  }

  /** Role strings: case and surrounding white space do not matter. */
  lemma StringRoleExamples()
    ensures IsAdminPerfil(Str("adm"))
    ensures IsAdminPerfil(Str(" ADMIN "))
  {
    TrimExamples();
    PaddedTrimExample();
    LowerExamples();
  }

  /** A near miss is not admin, and neither is any value that is neither a
      string nor an array. */
  lemma NonAdminExamples()
    ensures !IsAdminPerfil(Str("administrator"))
    ensures !IsAdminPerfil(Null) && !IsAdminPerfil(Undefined) && !IsAdminPerfil(Other)
  {
    TrimUnpadded("administrator");
    assert Lower("administrator") == "administrator";
  }

  /** Role arrays: one admin element suffices, an empty array or a nested
      array is not admin. */
  lemma ArrayRoleExamples()
    ensures IsAdminPerfil(Arr([Str("Administrador")]))
    ensures IsAdminPerfil(Arr([Str("aluno"), Str("Adm")]))
    ensures !IsAdminPerfil(Arr([]))
    ensures !IsAdminPerfil(Arr([Arr([Str("admin")])]))
  {
    TrimUnpadded("Administrador");
    assert Lower("Administrador") == "administrador";
    TrimUnpadded("Adm");
    assert Lower("Adm") == "adm";
    assert [Str("aluno"), Str("Adm")][1..] == [Str("Adm")];
    assert Some([Arr([Str("admin")])][1..], CountsAsAdmin) == Some([], CountsAsAdmin);
  }
}
