/**
 * The provider's `solidserverversion` setting: empty (the version is then
 * asked of the server), or a version such as "8.0.0." or "7.3.2.P1a",
 * validated by `^([0-9]\.[0-9]\.[0-9]\.([pP][0-9]+[a-z]?)?)?$`.
 */
module Provider {
  import opened Base
  import opened Text

  // ----- the validator -----

  /** `[0-9]+[a-z]?` */
  predicate IsPatchNumber(u: string)
  {
    |u| >= 1 && IsDigit(u[0]) && (AllDigits(u) || (AllDigits(u[..|u| - 1]) && IsLowerLetter(u[|u| - 1])))
  }

  /** `([pP][0-9]+[a-z]?)?` */
  predicate IsPatch(t: string)
  {
    t == [] || (|t| >= 2 && (t[0] == 'p' || t[0] == 'P') && IsPatchNumber(t[1..]))
  }

  /** The validator of the setting. */
  predicate IsVersion(s: string)
  {
    || s == []
    || (&& |s| >= 6
        && IsDigit(s[0]) && s[1] == '.' && IsDigit(s[2]) && s[3] == '.' && IsDigit(s[4]) && s[5] == '.'
        && IsPatch(s[6..]))
  }

  // ----- the structure of a setting -----

  /** A patch level: `p` or `P`, its number as written, and an optional letter. */
  datatype Patch = Patch(capital: bool, number: string, letter: Option<char>)

  /** A version: three one-digit components and an optional patch level. */
  datatype Version = Version(major: int, minor: int, build: int, patch: Option<Patch>)

  /** The setting: absent, or a version. */
  datatype Setting = Unset | Set(version: Version)

  predicate IsDigitValue(d: int) { 0 <= d < 10 }

  predicate WellFormedPatch(p: Patch)
  {
    |p.number| > 0 && AllDigits(p.number) && (p.letter.Some? ==> IsLowerLetter(p.letter.value))
  }

  predicate WellFormed(s: Setting)
  {
    s.Set? ==>
      && IsDigitValue(s.version.major) && IsDigitValue(s.version.minor) && IsDigitValue(s.version.build)
      && (s.version.patch.Some? ==> WellFormedPatch(s.version.patch.value))
  }

  function RenderPatch(p: Option<Patch>): string
    requires p.Some? ==> WellFormedPatch(p.value)
  {
    match p
    case None => ""
    case Some(q) => [if q.capital then 'P' else 'p'] + q.number + (if q.letter.Some? then [q.letter.value] else "")
  }

  /** The text of a setting. */
  function Render(s: Setting): string
    requires WellFormed(s)
  {
    match s
    case Unset => ""
    case Set(v) =>
      [DigitChar(v.major), '.', DigitChar(v.minor), '.', DigitChar(v.build), '.'] + RenderPatch(v.patch)
  }

  function DigitOf(c: char): int
  {
    c as int - '0' as int
  }

  function ParsePatch(t: string): Option<Option<Patch>>
  {
    if t == [] then Some(None)
    else if |t| >= 2 && (t[0] == 'p' || t[0] == 'P') then
      var u := t[1..];
      if AllDigits(u) then Some(Some(Patch(t[0] == 'P', u, None)))
      else if |u| >= 2 && AllDigits(u[..|u| - 1]) && IsLowerLetter(u[|u| - 1]) then
        Some(Some(Patch(t[0] == 'P', u[..|u| - 1], Some(u[|u| - 1]))))
      else None
    else None
  }

  /** Reads a setting; None for a string the validator refuses. */
  function Parse(s: string): (r: Option<Setting>)
    ensures r.Some? ==> WellFormed(r.value)
  {
    if s == [] then Some(Unset)
    else if |s| >= 6 && IsDigit(s[0]) && s[1] == '.' && IsDigit(s[2]) && s[3] == '.' && IsDigit(s[4]) && s[5] == '.' then
      match ParsePatch(s[6..])
      case None => None
      case Some(p) => Some(Set(Version(DigitOf(s[0]), DigitOf(s[2]), DigitOf(s[4]), p)))
    else None
  }

  // ----- laws -----

  lemma PatchValidIffParses(t: string)
    ensures IsPatch(t) <==> ParsePatch(t).Some?
  {
    if |t| >= 2 {
      var u := t[1..];
      if AllDigits(u) {
        assert IsDigit(u[0]);
      } else if |u| >= 2 && AllDigits(u[..|u| - 1]) && IsLowerLetter(u[|u| - 1]) {
        assert IsDigit(u[..|u| - 1][0]);
      }
    }
  }

  /** The validator accepts exactly the strings that read as a setting. */
  lemma ValidIffParses(s: string)
    ensures IsVersion(s) <==> Parse(s).Some?
  {
    if |s| >= 6 {
      PatchValidIffParses(s[6..]);
    }
  }

  lemma ParseRenderPatch(p: Option<Patch>)
    requires p.Some? ==> WellFormedPatch(p.value)
    ensures ParsePatch(RenderPatch(p)) == Some(p)
  {
    if p.Some? {
      var q := p.value;
      var t := RenderPatch(p);
      var u := t[1..];
      if q.letter.None? {
        assert u == q.number;
      } else {
        assert u == q.number + [q.letter.value];
        assert u[..|u| - 1] == q.number;
        assert !AllDigits(u) by { assert !IsDigit(u[|u| - 1]); }
      }
    }
  }

  /** Every well-formed setting is read back from its text. */
  lemma ParseRender(s: Setting)
    requires WellFormed(s)
    ensures Parse(Render(s)) == Some(s)
  {
    if s.Set? {
      var t := Render(s);
      assert t[6..] == RenderPatch(s.version.patch);
      ParseRenderPatch(s.version.patch);
    }
  }

  /** Every accepted string is the text of the setting it reads as. */
  lemma RenderParse(s: string)
    requires Parse(s).Some?
    ensures Render(Parse(s).value) == s
  {
    if s != [] {
      var t := s[6..];
      var p := ParsePatch(t).value;
      assert RenderPatch(p) == t by {
        if p.Some? {
          var u := t[1..];
          assert t == [t[0]] + u;
          if !AllDigits(u) {
            assert u == u[..|u| - 1] + [u[|u| - 1]];
          }
        }
      }
      assert s == s[..6] + t;
    }
  }

  /** Forms the validator accepts: no version, and three digits with or without a patch level. */
  lemma AcceptedForms()
    ensures IsVersion("")
    ensures IsVersion("7.3.1.")
    ensures IsVersion("7.3.2.p1")
  {
    var b := "7.3.2.p1";
    assert b[6..] == "p1" && b[6..][1..] == "1";
  }

  /** A patch level may end with one lower-case letter. */
  lemma PatchLetterAccepted()
    ensures IsVersion("8.0.0.P12a")
  {
    var a := "8.0.0.P12a";
    assert a[6..] == "P12a" && a[6..][1..] == "12a" && "12a"[..2] == "12";
  }

  /** Forms the validator refuses: no final dot, a two-digit component, a
      patch level without digits, two letters, an upper-case letter. */
  lemma RefusedForms()
    ensures !IsVersion("7.3.1")
    ensures !IsVersion("10.1.0.")
    ensures !IsVersion("7.3.1.p")
    ensures !IsVersion("7.3.1.p1ab")
    ensures !IsVersion("7.3.1.pA")
  {
    var c := "7.3.1.p1ab";
    assert c[6..][1..] == "1ab" && "1ab"[..2] == "1a";
    assert !AllDigits("1ab") by { assert !IsDigit("1ab"[1]); }
    assert !AllDigits("1a") by { assert !IsDigit("1a"[1]); }
    var d := "7.3.1.pA";
    assert d[6..][1..] == "A";
  }
}
