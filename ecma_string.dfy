/**
 * The part of ECMAScript's `String.prototype.replace` (section 22.1.3.19 of ECMA-262,
 * 15th edition) that the translation lookup uses: the search value is a string (never a
 * regular expression) and the replace value is a string (never a function). Under those
 * conditions only the first occurrence of the search string is replaced, and the
 * replacement text is expanded by GetSubstitution (section 22.1.3.19.1) with no captures
 * and no named captures.
 *
 * Strings are sequences of Unicode scalar values here, not of UTF-16 code units.
 */
module EcmaString {

  /** `pat` occurs in `s` starting at index `i`. */
  predicate OccursAt(s: string, pat: string, i: int)
  {
    0 <= i && i + |pat| <= |s| && s[i..i + |pat|] == pat
  }

  /**
   * StringIndexOf(s, pat, from) (section 6.1.4.1): the smallest index at or after `from`
   * where `pat` occurs, or -1 when there is none.
   */
  function IndexOf(s: string, pat: string, from: nat): (r: int)
    requires from <= |s|
    ensures r == -1 || (from <= r && r + |pat| <= |s|)
    decreases |s| - from
  {
    if from + |pat| > |s| then -1
    else if s[from..from + |pat|] == pat then from
    else IndexOf(s, pat, from + 1)
  }

  /** IndexOf returns -1 exactly when there is no occurrence, and otherwise the first one. */
  lemma {:induction false} IndexOfFinds(s: string, pat: string, from: nat)
    requires from <= |s|
    ensures var r := IndexOf(s, pat, from);
      && (r == -1 || (from <= r && OccursAt(s, pat, r)))
      && (r == -1 <==> forall i :: from <= i ==> !OccursAt(s, pat, i))
      && (r != -1 ==> forall i :: from <= i < r ==> !OccursAt(s, pat, i))
    decreases |s| - from
  {
    if from + |pat| > |s| {
    } else if s[from..from + |pat|] == pat {
    } else {
      IndexOfFinds(s, pat, from + 1);
    }
  }

  predicate IsDigit(c: char)
  {
    '0' <= c <= '9'
  }

  /**
   * GetSubstitution(matched, str, position, captures, namedCaptures, template) with
   * `captures` empty and `namedCaptures` undefined, which is how `replace` calls it for
   * a string search value. `$$`, `` $` ``, `$&` and `$'` are expanded; every `$n`,
   * `$nn` and `$<` reference names no capture and is copied literally.
   */
  function GetSubstitution(matched: string, str: string, position: nat, template: string): (r: string)
    requires position <= |str|
    decreases |template|
  {
    if template == [] then []
    else if template[0] == '$' && |template| >= 2 then
      var c := template[1];
      if c == '$' then "$" + GetSubstitution(matched, str, position, template[2..])
      else if c == '`' then str[..position] + GetSubstitution(matched, str, position, template[2..])
      else if c == '&' then matched + GetSubstitution(matched, str, position, template[2..])
      else if c == '\'' then
        var tailPos := if position + |matched| <= |str| then position + |matched| else |str|;
        str[tailPos..] + GetSubstitution(matched, str, position, template[2..])
      else if IsDigit(c) then
        // Two digits name capture `index`; with no captures only "$00" (index 0) keeps both
        // digits, any other two-digit reference is re-read as one digit and a literal digit.
        var digitCount := if |template| >= 3 && IsDigit(template[2]) && c == '0' && template[2] == '0' then 2 else 1;
        template[..1 + digitCount] + GetSubstitution(matched, str, position, template[1 + digitCount..])
      else if c == '<' then "$<" + GetSubstitution(matched, str, position, template[2..])
      else "$" + GetSubstitution(matched, str, position, template[1..])
    else template[..1] + GetSubstitution(matched, str, position, template[1..])
  }

  /**
   * `s.replace(pat, rep)` for string `pat` and string `rep`: the first occurrence of `pat`
   * is replaced by the expansion of `rep`; when `pat` does not occur, `s` is returned.
   */
  function ReplaceFirst(s: string, pat: string, rep: string): string
  {
    var p := IndexOf(s, pat, 0);
    if p == -1 then s
    else s[..p] + GetSubstitution(pat, s, p, rep) + s[p + |pat|..]
  }

  /** When `pat` does not occur in `s`, `replace` returns `s` unchanged. */
  lemma ReplaceWithoutOccurrence(s: string, pat: string, rep: string)
    requires forall i :: !OccursAt(s, pat, i)
    ensures ReplaceFirst(s, pat, rep) == s
  {
    IndexOfFinds(s, pat, 0);
  }

  /** A replacement without `$` is inserted as it is. */
  lemma {:induction false} SubstitutionWithoutDollar(matched: string, str: string, position: nat, template: string)
    requires position <= |str|
    requires '$' !in template
    ensures GetSubstitution(matched, str, position, template) == template
    decreases |template|
  {
    if template != [] {
      assert template[0] != '$';
      assert '$' !in template[1..] by {
        forall k | 0 <= k < |template[1..]| ensures template[1..][k] != '$' {
          assert template[1..][k] == template[k + 1];
        }
      }
      SubstitutionWithoutDollar(matched, str, position, template[1..]);
      assert template == template[..1] + template[1..];
    }
  }

  /** When the first occurrence of `pat` is at `p`, exactly that occurrence is rewritten. */
  lemma ReplaceFirstAt(s: string, pat: string, rep: string, p: nat)
    requires OccursAt(s, pat, p)
    requires forall i :: 0 <= i < p ==> !OccursAt(s, pat, i)
    ensures ReplaceFirst(s, pat, rep) == s[..p] + GetSubstitution(pat, s, p, rep) + s[p + |pat|..]
  {
    var r := IndexOf(s, pat, 0);
    IndexOfFinds(s, pat, 0);
    assert r != -1;
    assert !(r < p) && !(p < r);
  }

  /**
   * Only the first occurrence is replaced: with a replacement without `$`, an occurrence of
   * `pat` after the first one is still present, shifted by the difference in length.
   */
  lemma LaterOccurrenceKept(s: string, pat: string, rep: string, p: nat, q: nat)
    requires OccursAt(s, pat, p)
    requires forall i :: 0 <= i < p ==> !OccursAt(s, pat, i)
    requires p + |pat| <= q && OccursAt(s, pat, q)
    requires '$' !in rep
    ensures OccursAt(ReplaceFirst(s, pat, rep), pat, q - |pat| + |rep|)
  {
    var r := ReplaceFirst(s, pat, rep);
    assert r == s[..p] + rep + s[p + |pat|..] by {
      ReplaceFirstAt(s, pat, rep, p);
      SubstitutionWithoutDollar(pat, s, p, rep);
    }
    ShiftedOccurrence(s, pat, rep, p, q);
  }

  /** Splicing `rep` over `s[p..p + |pat|]` keeps an occurrence of `pat` that starts after it. */
  lemma ShiftedOccurrence(s: string, pat: string, rep: string, p: nat, q: nat)
    requires p + |pat| <= q && OccursAt(s, pat, q)
    ensures OccursAt(s[..p] + rep + s[p + |pat|..], pat, q - |pat| + |rep|)
  {
    var r := s[..p] + rep + s[p + |pat|..];
    var q' := q - |pat| + |rep|;
    forall k | 0 <= k < |pat| ensures r[q' + k] == pat[k] {
      assert r[q' + k] == s[q + k];
      assert s[q..q + |pat|][k] == s[q + k];
    }
    assert r[q'..q' + |pat|] == pat;
  }

  /** `$&` in the replacement stands for the matched text, so replacing with it changes nothing. */
  lemma MatchedReferenceKeepsString(s: string, pat: string)
    ensures ReplaceFirst(s, pat, "$&") == s
  {
    var p := IndexOf(s, pat, 0);
    IndexOfFinds(s, pat, 0);
    if p != -1 {
      assert GetSubstitution(pat, s, p, "$&") == pat by {
        assert "$&"[2..] == [];
      }
      assert s[..p] + pat + s[p + |pat|..] == s by {
        assert s[p..p + |pat|] == pat;
      }
    }
  }

  /** "%word% and %word%".replace("%word%", v) leaves the second placeholder in place. */
  lemma OnlyFirstReplaced(v: string)
    requires '$' !in v
    ensures ReplaceFirst("%word% and %word%", "%word%", v) == v + " and %word%"
  {
    var s, pat := "%word% and %word%", "%word%";
    var r := ReplaceFirst(s, pat, v);
    assert r == s[..0] + v + s[6..] by {
      assert s[0..6] == pat;
      ReplaceFirstAt(s, pat, v, 0);
      SubstitutionWithoutDollar(pat, s, 0, v);
    }
    assert s[6..] == " and %word%";
  }

  /** `$$` expands to one `$` and `$&` to the matched text. */
  lemma DollarReferences(s: string, position: nat)
    requires position <= |s|
    ensures GetSubstitution("%word%", s, position, "$$ $&") == "$ %word%"
  {
    var t, t1, t2 := "$$ $&", " $&", "$&";
    assert t[2..] == t1 && t1[1..] == t2 && t2[2..] == [];
    assert GetSubstitution("%word%", s, position, t2) == "%word%";
    assert GetSubstitution("%word%", s, position, t1) == " %word%";
  }

  /** A replacement text with `$` patterns is expanded before it is inserted. */
  lemma DollarPatternsExpanded()
    ensures ReplaceFirst("%word%!", "%word%", "$$ $&") == "$ %word%!"
  {
    var s, pat, t := "%word%!", "%word%", "$$ $&";
    assert s[0..6] == pat;
    ReplaceFirstAt(s, pat, t, 0);
    DollarReferences(s, 0);
    assert s[6..] == "!";
  }

  /**
   * When the first character of `pat` does not occur in `prefix`, the first occurrence of
   * `pat` in `prefix + pat + rest` is the one right after `prefix`.
   */
  lemma ReplaceAfterPrefix(prefix: string, pat: string, rest: string, v: string)
    requires pat != [] && pat[0] !in prefix
    requires '$' !in v
    ensures ReplaceFirst(prefix + pat + rest, pat, v) == prefix + v + rest
  {
    var s := prefix + pat + rest;
    var p := |prefix|;
    assert s[..p] == prefix && s[p..p + |pat|] == pat && s[p + |pat|..] == rest;
    forall i | 0 <= i < p ensures !OccursAt(s, pat, i) {
      assert s[i] == prefix[i];
    }
    ReplaceFirstAt(s, pat, v, p);
    SubstitutionWithoutDollar(pat, s, p, v);
  }
}
