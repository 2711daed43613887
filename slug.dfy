/**
  `slugify` from feature_selection/feature_selection.py: the table-name form
  of a theme name. The input is taken after the Unicode normalisation and the
  ASCII folding the source applies first; what remains is lower-casing and two
  regular-expression substitutions around a strip.
 */
module Slug {
  import opened Text

  /** The characters `[a-z0-9]` that the first substitution keeps. */
  predicate IsSlugChar(c: char) { IsAsciiLower(c) || IsDigit(c) }

  /** Drops the leading run of characters outside `[a-z0-9]`. */
  function DropRun(s: string): (r: string)
    ensures |r| <= |s|
    ensures r == [] || IsSlugChar(r[0])
    ensures s != [] && !IsSlugChar(s[0]) ==> |r| < |s|
    ensures s != [] && IsSlugChar(s[0]) ==> r == s
  {
    if s != [] && !IsSlugChar(s[0]) then DropRun(s[1..]) else s
  }

  /** `re.sub(r'[^a-z0-9]+', '_', s)`: every maximal run outside `[a-z0-9]` becomes one `_`. */
  function ReplaceRuns(s: string): (r: string)
    decreases |s|
  {
    if s == [] then []
    else if IsSlugChar(s[0]) then [s[0]] + ReplaceRuns(s[1..])
    else "_" + ReplaceRuns(DropRun(s))
  }

  /** `s.strip('_')`. */
  function StripUnderscores(s: string): string
  {
    if s != [] && s[0] == '_' then StripUnderscores(s[1..])
    else if s != [] && s[|s| - 1] == '_' then StripUnderscores(s[..|s| - 1])
    else s
  }

  /** `re.sub(r'[_]+', '_', s)`: every run of underscores becomes one. */
  function CollapseUnderscores(s: string): string
  {
    if |s| >= 2 && s[0] == '_' && s[1] == '_' then CollapseUnderscores(s[1..])
    else if s == [] then []
    else [s[0]] + CollapseUnderscores(s[1..])
  }

  function Slugify(s: string): string
  {
    CollapseUnderscores(StripUnderscores(ReplaceRuns(Lower(s))))
  }

  /** Every character is in `[a-z0-9_]`. */
  predicate SlugAlphabet(s: string) {
    forall i :: 0 <= i < |s| ==> IsSlugChar(s[i]) || s[i] == '_'
  }

  /** No two adjacent underscores. */
  predicate NoDoubleUnderscore(s: string) {
    forall i :: 0 <= i < |s| - 1 ==> !(s[i] == '_' && s[i + 1] == '_')
  }

  /** The shape of a slug: its alphabet, no `__`, and no `_` at either end. */
  predicate IsSlug(s: string) {
    SlugAlphabet(s) && NoDoubleUnderscore(s)
    && (s == [] || (s[0] != '_' && s[|s| - 1] != '_'))
  }

  lemma {:induction false} ReplaceRunsShape(s: string)
    ensures SlugAlphabet(ReplaceRuns(s)) && NoDoubleUnderscore(ReplaceRuns(s))
    ensures ReplaceRuns(s) != [] && ReplaceRuns(s)[0] == '_' <==> s != [] && !IsSlugChar(s[0])
    decreases |s|
  {
    if s != [] {
      if IsSlugChar(s[0]) {
        ReplaceRunsShape(s[1..]);
      } else {
        var t := DropRun(s);
        ReplaceRunsShape(t);
        assert ReplaceRuns(t) == [] || ReplaceRuns(t)[0] != '_';
      }
    }
  }

  lemma {:induction false} StripShape(s: string)
    requires SlugAlphabet(s) && NoDoubleUnderscore(s)
    ensures IsSlug(StripUnderscores(s))
    decreases |s|
  {
    if s != [] && s[0] == '_' {
      StripShape(s[1..]);
    } else if s != [] && s[|s| - 1] == '_' {
      StripShape(s[..|s| - 1]);
    }
  }

  /** The last substitution changes nothing once no `__` is left. */
  lemma {:induction false} CollapseIdentity(s: string)
    requires NoDoubleUnderscore(s)
    ensures CollapseUnderscores(s) == s
  {
    if s != [] {
      CollapseIdentity(s[1..]);
    }
  }

  /**
    The result of `slugify` uses only `[a-z0-9_]`, has no `_` at either end and
    never contains `__`; the final `[_]+` substitution is redundant.
   */
  lemma SlugifyIsSlug(s: string)
    ensures IsSlug(Slugify(s))
    ensures Slugify(s) == StripUnderscores(ReplaceRuns(Lower(s)))
  {
    var t := ReplaceRuns(Lower(s));
    ReplaceRunsShape(Lower(s));
    StripShape(t);
    CollapseIdentity(StripUnderscores(t));
  }

  /** On a string that already has the shape of a slug the first substitution is the identity. */
  lemma {:induction false} ReplaceRunsIdentity(s: string)
    requires SlugAlphabet(s) && NoDoubleUnderscore(s) && (s == [] || s[|s| - 1] != '_')
    ensures ReplaceRuns(s) == s
    decreases |s|
  {
    if s != [] {
      if IsSlugChar(s[0]) {
        ReplaceRunsIdentity(s[1..]);
      } else {
        assert |s| >= 2 && IsSlugChar(s[1]);
        assert DropRun(s) == s[1..] by {
          assert DropRun(s) == DropRun(s[1..]);
        }
        ReplaceRunsIdentity(s[1..]);
      }
    }
  }

  /** Slugifying a slug gives it back, so `slugify` is idempotent. */
  lemma SlugifyIdempotent(s: string)
    ensures Slugify(Slugify(s)) == Slugify(s)
  {
    var t := Slugify(s);
    SlugifyIsSlug(s);
    assert NoUpper(t) by {
      forall i | 0 <= i < |t| ensures !IsAsciiUpper(t[i]) {
        assert IsSlugChar(t[i]) || t[i] == '_';
      }
    }
    LowerIdentity(t);
    ReplaceRunsIdentity(t);
    assert StripUnderscores(t) == t;
    CollapseIdentity(t);
  }
}
