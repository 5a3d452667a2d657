/** The tenant dashboard's computed text: the status badge, whether the
    description line appears, and the two contact addresses derived from the
    society's name by `toLowerCase().replace(/\s+/g, '')`. */
module TenantDashboard {
  import opened Types

  const GreenBadge: string := "bg-green-100 text-green-800"
  const RedBadge: string := "bg-red-100 text-red-800"

  /** The status badge's colour: green for an active society, red otherwise. */
  function StatusBadge(status: SocietyStatus): (c: string)
    ensures c == GreenBadge <==> status == Active
    ensures c == RedBadge <==> status != Active
  {
    if status == Active then GreenBadge else RedBadge
  }

  /** `{society.description && ...}`: null and the empty string are both falsy. */
  function ShowsDescription(description: Option<string>): (b: bool)
    ensures b <==> description.Some? && description.value != ""
  {
    match description
    case None => false
    case Some(d) => |d| > 0
  }

  // ------------------------------------------------------------------ slug

  /** The characters the regular-expression class `\s` matches (ECMAScript
      WhiteSpace and LineTerminator), by code point. */
  predicate IsSpace(c: char) {
    var n := c as int;
    (9 <= n <= 13) || n == 32 || n == 0xA0 || n == 0x1680 || (0x2000 <= n <= 0x200A) ||
    n == 0x2028 || n == 0x2029 || n == 0x202F || n == 0x205F || n == 0x3000 || n == 0xFEFF
  }

  predicate IsUpper(c: char) {
    'A' <= c <= 'Z'
  }

  /** Lower-casing, on the ASCII letters. */
  function LowerChar(c: char): (d: char)
    ensures !IsUpper(d)
    ensures IsSpace(d) <==> IsSpace(c)
    ensures !IsUpper(c) ==> d == c
  {
    if IsUpper(c) then (c as int + 32) as char else c
  }

  /** `toLowerCase()`, on the ASCII letters. */
  function ToLowerCase(s: string): (r: string)
    ensures |r| == |s|
    ensures forall i :: 0 <= i < |s| ==> r[i] == LowerChar(s[i])
    ensures forall c :: c in r ==> !IsUpper(c)
  {
    seq(|s|, i requires 0 <= i < |s| => LowerChar(s[i]))
  }

  /** The suffix left after a run of `\s` at the front. */
  function SkipSpaces(s: string): (r: string)
    ensures |r| <= |s| && r == s[|s| - |r|..]
    ensures r == [] || !IsSpace(r[0])
  {
    if s != [] && IsSpace(s[0]) then SkipSpaces(s[1..]) else s
  }

  /** `replace(/\s+/g, replacement)`: every maximal run of `\s` becomes
      `replacement`. Every other character of the result is a non-space
      character of `s`, a string with no `\s` comes back unchanged, and a
      replacement of at most one character never lengthens the string. */
  function ReplaceSpaceRuns(s: string, replacement: string): (r: string)
    ensures forall c :: c in r ==> (c in s && !IsSpace(c)) || c in replacement
    ensures (forall c :: c in s ==> !IsSpace(c)) ==> r == s
    ensures |replacement| <= 1 ==> |r| <= |s|
    decreases |s|
  {
    if s == [] then []
    else if IsSpace(s[0]) then replacement + ReplaceSpaceRuns(SkipSpaces(s), replacement)
    else [s[0]] + ReplaceSpaceRuns(s[1..], replacement)
  }

  /** The string without its `\s` characters. */
  function RemoveSpaces(s: string): (r: string)
    ensures |r| <= |s|
    ensures forall c :: c in r ==> c in s && !IsSpace(c)
  {
    if s == [] then []
    else if IsSpace(s[0]) then RemoveSpaces(s[1..])
    else [s[0]] + RemoveSpaces(s[1..])
  }

  /** Erasing whole runs is erasing each space character. */
  lemma {:induction false} ReplaceRunsErasesSpaces(s: string)
    ensures ReplaceSpaceRuns(s, "") == RemoveSpaces(s)
    decreases |s|
  {
    if s == [] {
    } else if IsSpace(s[0]) {
      SkipSpacesRemovesNothing(s);
      ReplaceRunsErasesSpaces(SkipSpaces(s));
    } else {
      ReplaceRunsErasesSpaces(s[1..]);
    }
  }

  /** Removing the spaces of a leading run first changes nothing. */
  lemma {:induction false} SkipSpacesRemovesNothing(s: string)
    ensures RemoveSpaces(SkipSpaces(s)) == RemoveSpaces(s)
  {
    if s != [] && IsSpace(s[0]) {
      SkipSpacesRemovesNothing(s[1..]);
    }
  }

  /** The slug the contact addresses use: no longer than the name, with no
      `\s` character and no upper-case ASCII letter. */
  function Slug(name: string): (r: string)
    ensures |r| <= |name|
    ensures forall c :: c in r ==> !IsSpace(c) && !IsUpper(c)
  {
    ReplaceSpaceRuns(ToLowerCase(name), "")
  }

  /** The slug is the lower-cased name with every `\s` character removed, and
      holds no `\s` character and no upper-case ASCII letter. */
  lemma SlugShape(name: string)
    ensures Slug(name) == RemoveSpaces(ToLowerCase(name))
    ensures forall c :: c in Slug(name) ==> !IsSpace(c) && !IsUpper(c)
  {
    ReplaceRunsErasesSpaces(ToLowerCase(name));
    forall c | c in Slug(name) ensures !IsUpper(c) {
      var lowered := ToLowerCase(name);
      assert c in lowered;
      var i :| 0 <= i < |lowered| && lowered[i] == c;
    }
  }

  /** Lower-casing and removing spaces commute. */
  lemma {:induction false} LowerThenRemoveCommute(s: string)
    ensures RemoveSpaces(ToLowerCase(s)) == ToLowerCase(RemoveSpaces(s))
  {
    if s != [] {
      assert ToLowerCase(s)[1..] == ToLowerCase(s[1..]);
      LowerThenRemoveCommute(s[1..]);
      if !IsSpace(s[0]) {
        assert ToLowerCase([s[0]] + RemoveSpaces(s[1..])) == [LowerChar(s[0])] + ToLowerCase(RemoveSpaces(s[1..]));
      }
    }
  }

  /** A slug is its own slug. */
  lemma SlugIdempotent(name: string)
    ensures Slug(Slug(name)) == Slug(name)
  {
    var t := Slug(name);
    SlugShape(name);
    SlugShape(t);
    assert ToLowerCase(t) == t;
    NoSpacesUnchanged(t);
  }

  /** Removing spaces from a string that has none changes nothing. */
  lemma {:induction false} NoSpacesUnchanged(s: string)
    requires forall c :: c in s ==> !IsSpace(c)
    ensures RemoveSpaces(s) == s
  {
    if s != [] {
      assert s[0] in s;
      assert forall c :: c in s[1..] ==> c in s;
      NoSpacesUnchanged(s[1..]);
      assert [s[0]] + s[1..] == s;
    }
  }

  /** The "Society Admin" contact: an `admin@` address in the `.com` domain
      holding no `\s` character. */
  function AdminContact(societyName: string): (r: string)
    ensures |r| >= 10 && r[..6] == "admin@" && r[|r| - 4..] == ".com"
    ensures forall c :: c in r ==> !IsSpace(c)
  {
    "admin@" + Slug(societyName) + ".com"
  }

  /** The "Emergency Contact" address: an `emergency@` address in the `.com`
      domain holding no `\s` character. */
  function EmergencyContact(societyName: string): (r: string)
    ensures |r| >= 14 && r[..10] == "emergency@" && r[|r| - 4..] == ".com"
    ensures forall c :: c in r ==> !IsSpace(c)
  {
    "emergency@" + Slug(societyName) + ".com"
  }

  /** Both addresses share one domain built from the slug, and neither holds
      a `\s` character. */
  lemma ContactsShareDomain(societyName: string)
    ensures AdminContact(societyName)[..6] == "admin@"
    ensures EmergencyContact(societyName)[..10] == "emergency@"
    ensures AdminContact(societyName)[6..] == EmergencyContact(societyName)[10..] == Slug(societyName) + ".com"
    ensures forall c :: c in AdminContact(societyName) ==> !IsSpace(c)
    ensures forall c :: c in EmergencyContact(societyName) ==> !IsSpace(c)
  {
    SlugShape(societyName);
    var d := Slug(societyName) + ".com";
    assert AdminContact(societyName) == "admin@" + d;
    assert EmergencyContact(societyName) == "emergency@" + d;
  }
}
