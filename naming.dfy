/**
 * The display-name normaliser shared by the recording upload (user and camera names)
 * and the scan-face upload (user names): lower-case, decompose accented letters,
 * drop the combining marks U+0300..U+036F, turn every other character outside
 * [a-z0-9] into '-', collapse runs of '-', then drop one leading and one trailing '-'.
 */
module Naming {
  import opened Text
  import opened Wrappers

  /** The placeholder used when no name can be obtained. */
  const Unknown: string := "unknown"

  /** Canonical decomposition of the precomposed lower-case Latin-1 letters (other characters are left alone). */
  function Decompose(c: char): string {
    match c
    case 'à' => "a\U{0300}"  case 'á' => "a\U{0301}"  case 'â' => "a\U{0302}"
    case 'ã' => "a\U{0303}"  case 'ä' => "a\U{0308}"  case 'å' => "a\U{030A}"
    case 'ç' => "c\U{0327}"
    case 'è' => "e\U{0300}"  case 'é' => "e\U{0301}"  case 'ê' => "e\U{0302}"  case 'ë' => "e\U{0308}"
    case 'ì' => "i\U{0300}"  case 'í' => "i\U{0301}"  case 'î' => "i\U{0302}"  case 'ï' => "i\U{0308}"
    case 'ñ' => "n\U{0303}"
    case 'ò' => "o\U{0300}"  case 'ó' => "o\U{0301}"  case 'ô' => "o\U{0302}"
    case 'õ' => "o\U{0303}"  case 'ö' => "o\U{0308}"
    case 'ù' => "u\U{0300}"  case 'ú' => "u\U{0301}"  case 'û' => "u\U{0302}"  case 'ü' => "u\U{0308}"
    case 'ý' => "y\U{0301}"  case 'ÿ' => "y\U{0308}"
    case _ => [c]
  }

  /** `normalize('NFD')`, as far as the decomposition table above goes. */
  function Nfd(s: string): string
    decreases |s|
  {
    if |s| == 0 then "" else Decompose(s[0]) + Nfd(s[1..])
  }

  /** The combining diacritical marks, U+0300..U+036F. */
  predicate IsMark(c: char) {
    '\U{0300}' <= c <= '\U{036F}'
  }

  /** `replace(/[̀-ͯ]/g, '')`. */
  function StripMarks(s: string): string
    decreases |s|
  {
    if |s| == 0 then "" else (if IsMark(s[0]) then "" else [s[0]]) + StripMarks(s[1..])
  }

  predicate IsAlnum(c: char) {
    'a' <= c <= 'z' || '0' <= c <= '9'
  }

  predicate IsSlugChar(c: char) {
    IsAlnum(c) || c == '-'
  }

  predicate SlugChars(s: string) {
    forall i :: 0 <= i < |s| ==> IsSlugChar(s[i])
  }

  predicate NoDoubleHyphen(s: string) {
    forall i :: 0 <= i < |s| - 1 ==> !(s[i] == '-' && s[i + 1] == '-')
  }

  /** What the normaliser promises of its output: only [a-z0-9-], no "--", no '-' at either end. */
  predicate Slug(s: string) {
    SlugChars(s) && NoDoubleHyphen(s) && (|s| > 0 ==> s[0] != '-' && s[|s| - 1] != '-')
  }

  /** `replace(/[^a-z0-9]/g, '-')`. */
  function ReplaceNonAlnum(s: string): (r: string)
    ensures |r| == |s| && SlugChars(r)
    ensures forall i :: 0 <= i < |s| ==> (IsAlnum(s[i]) ==> r[i] == s[i]) && (!IsAlnum(s[i]) ==> r[i] == '-')
  {
    seq(|s|, i requires 0 <= i < |s| => if IsAlnum(s[i]) then s[i] else '-')
  }

  /** `replace(/-+/g, '-')`. */
  function Collapse(s: string): string
    decreases |s|
  {
    if |s| < 2 then s
    else if s[0] == '-' && s[1] == '-' then Collapse(s[1..])
    else [s[0]] + Collapse(s[1..])
  }

  /** `replace(/^-|-$/g, '')`: one leading and one trailing '-' go. */
  function Trim(s: string): string {
    var t := if |s| > 0 && s[0] == '-' then s[1..] else s;
    if |t| > 0 && t[|t| - 1] == '-' then t[..|t| - 1] else t
  }

  /** The whole pipeline. */
  function Normalize(name: string): string {
    Trim(Collapse(ReplaceNonAlnum(StripMarks(Nfd(Lower(name))))))
  }

  lemma {:induction false} CollapseHead(s: string)
    requires |s| > 0
    ensures |Collapse(s)| > 0 && Collapse(s)[0] == s[0]
    decreases |s|
  {
    if |s| >= 2 && s[0] == '-' && s[1] == '-' {
      CollapseHead(s[1..]);
    }
  }

  lemma {:induction false} CollapseKeepsChars(s: string)
    requires SlugChars(s)
    ensures SlugChars(Collapse(s))
    decreases |s|
  {
    if |s| >= 2 {
      CollapseKeepsChars(s[1..]);
    }
  }

  lemma {:induction false} CollapseNoDouble(s: string)
    ensures NoDoubleHyphen(Collapse(s))
    decreases |s|
  {
    if |s| >= 2 {
      CollapseNoDouble(s[1..]);
      if !(s[0] == '-' && s[1] == '-') {
        CollapseHead(s[1..]);
        var c := Collapse(s[1..]);
        assert Collapse(s) == [s[0]] + c;
        assert forall i :: 1 <= i < |c| ==> !(c[i - 1] == '-' && c[i] == '-');
      }
    }
  }

  lemma {:induction false} CollapseFixed(s: string)
    requires NoDoubleHyphen(s)
    ensures Collapse(s) == s
    decreases |s|
  {
    if |s| >= 2 {
      CollapseFixed(s[1..]);
      assert s == [s[0]] + s[1..];
    }
  }

  lemma TrimSlug(s: string)
    requires SlugChars(s) && NoDoubleHyphen(s)
    ensures Slug(Trim(s))
  {
    var t := if |s| > 0 && s[0] == '-' then s[1..] else s;
    assert |t| > 0 ==> t[0] != '-' by {
      if |s| > 0 && s[0] == '-' && |t| > 0 { assert t[0] == s[1]; }
    }
    assert SlugChars(t) && NoDoubleHyphen(t);
    if |t| > 0 && t[|t| - 1] == '-' {
      var u := t[..|t| - 1];
      assert |t| >= 2;
      assert u[|u| - 1] == t[|t| - 2];
    }
  }

  lemma TrimFixed(s: string)
    requires Slug(s)
    ensures Trim(s) == s
  {
  }

  /** The normalised name contains only [a-z0-9-], has no "--" and does not start or end with '-'. */
  lemma NormalizeIsSlug(name: string)
    ensures Slug(Normalize(name))
  {
    var r := ReplaceNonAlnum(StripMarks(Nfd(Lower(name))));
    CollapseKeepsChars(r);
    CollapseNoDouble(r);
    TrimSlug(Collapse(r));
  }

  lemma {:induction false} NfdFixed(s: string)
    requires SlugChars(s)
    ensures Nfd(s) == s
    decreases |s|
  {
    if |s| > 0 {
      NfdFixed(s[1..]);
      assert Decompose(s[0]) == [s[0]];
      assert s == [s[0]] + s[1..];
    }
  }

  lemma {:induction false} StripMarksFixed(s: string)
    requires SlugChars(s)
    ensures StripMarks(s) == s
    decreases |s|
  {
    if |s| > 0 {
      StripMarksFixed(s[1..]);
      assert s == [s[0]] + s[1..];
    }
  }

  /** A slug is left exactly as it is by the normaliser. */
  lemma SlugIsFixedPoint(s: string)
    requires Slug(s)
    ensures Normalize(s) == s
  {
    assert Lower(s) == s;
    NfdFixed(s);
    StripMarksFixed(s);
    assert ReplaceNonAlnum(s) == s;
    CollapseFixed(s);
    TrimFixed(s);
  }

  /** A string is a fixed point of the normaliser exactly when it is a slug. */
  lemma FixedPointIffSlug(s: string)
    ensures Normalize(s) == s <==> Slug(s)
  {
    NormalizeIsSlug(s);
    if Slug(s) { SlugIsFixedPoint(s); }
  }

  /** Normalising twice is normalising once. */
  lemma NormalizeIdempotent(name: string)
    ensures Normalize(Normalize(name)) == Normalize(name)
  {
    NormalizeIsSlug(name);
    SlugIsFixedPoint(Normalize(name));
  }

  /** Outcome of the user or camera lookup made for naming a storage path. */
  datatype NameLookup =
    | LookupFailed(error: string)   // the repository call threw
    | NotFound                      // no such row
    | Found(name: Option<string>)   // the row and its (possibly null) name

  /** The row was found and carries a truthy (non-empty) name. */
  predicate HasName(l: NameLookup) {
    l.Found? && l.name.Some? && l.name.value != ""
  }

  /** The path segment for a looked-up name: its normalisation, or 'unknown' when there is no name. */
  function DisplayName(l: NameLookup): (r: string)
    ensures Slug(r)
    ensures !HasName(l) ==> r == Unknown
  {
    if HasName(l) then NormalizeIsSlug(l.name.value); Normalize(l.name.value) else Unknown
  }

  /** A failed lookup, a missing row and a missing or empty name all give 'unknown'; a real name gives its normalisation, even when that is empty. */
  lemma DisplayNameCases(l: NameLookup)
    ensures l.LookupFailed? || l.NotFound? ==> DisplayName(l) == Unknown
    ensures l.Found? && (l.name.None? || l.name == Some("")) ==> DisplayName(l) == Unknown
    ensures HasName(l) ==> DisplayName(l) == Normalize(l.name.value)
  {
  }
}
