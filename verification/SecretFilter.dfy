/** One-pass redaction of secrets in log messages. */
module SecretFilter {
  import opened Support

  /** Tried in this order at every position. */
  const PREFIXES: seq<string> := ["github_pat_", "sk-or-v1-", "gho_", "ghp_", "ghs_", "sk-", "hf_"]
  const OPENROUTER: nat := 1
  const GENERIC_SK: nat := 5
  const MASK := "***REDACTED***"

  predicate WordChar(c: char) {
    'A' <= c <= 'Z' || 'a' <= c <= 'z' || '0' <= c <= '9' || c == '_'
  }

  /** Number of word characters at the start of s. */
  function WordRun(s: string): (n: nat)
    ensures n <= |s| && (forall i :: 0 <= i < n ==> WordChar(s[i])) && (n < |s| ==> !WordChar(s[n]))
  {
    if s == "" || !WordChar(s[0]) then 0 else 1 + WordRun(s[1..])
  }

  function Prefix(k: nat): string
    requires k < |PREFIXES|
  {
    PREFIXES[k]
  }

  /** Alternative k of the pattern matches at the start of s. */
  predicate Matches(s: string, k: nat)
    requires k < |PREFIXES|
  {
    Prefix(k) <= s && |Prefix(k)| < |s| && WordChar(s[|Prefix(k)|])
  }

  /** The first alternative, from k on, that matches at the start of s. */
  function Alternative(s: string, k: nat): (r: Option<nat>)
    requires k <= |PREFIXES|
    ensures r.Some? ==>
              && k <= r.value < |PREFIXES| && Matches(s, r.value)
              && forall j :: k <= j < r.value ==> !Matches(s, j)
    ensures r.None? ==> forall j :: k <= j < |PREFIXES| ==> !Matches(s, j)
    decreases |PREFIXES| - k
  {
    if k == |PREFIXES| then None
    else if Matches(s, k) then Some(k)
    else Alternative(s, k + 1)
  }

  function MatchLength(s: string, k: nat): (n: nat)
    requires k < |PREFIXES| && Matches(s, k)
    ensures |Prefix(k)| < n <= |s|
  {
    |Prefix(k)| + WordRun(s[|Prefix(k)|..])
  }

  /** What a match of alternative k keeps of its prefix, after one pass or after two. */
  function Kept(k: nat, again: bool): string
    requires k < |PREFIXES|
  {
    if again && k == OPENROUTER then Prefix(GENERIC_SK) else Prefix(k)
  }

  function Replacement(k: nat, again: bool): string
    requires k < |PREFIXES|
  {
    Kept(k, again) + MASK + if again && k == OPENROUTER then "-v1-" + MASK else ""
  }

  /** Leftmost matches replaced, everything else copied. */
  function Rewrite(t: string, again: bool): string {
    if t == "" then ""
    else
      var m := Alternative(t, 0);
      if m.Some? then Replacement(m.value, again) + Rewrite(t[MatchLength(t, m.value)..], again)
      else [t[0]] + Rewrite(t[1..], again)
  }

  function Pass(t: string): string {
    Rewrite(t, false)
  }

  // ---- Rescanning ----

  lemma KeptIsPrefix(k: nat, again: bool)
    requires k < |PREFIXES|
    ensures Kept(k, again) <= Prefix(k) && '*' !in Prefix(k)
    ensures |Kept(k, again)| < |Replacement(k, again)| && Replacement(k, again)[|Kept(k, again)|] == '*'
    ensures Kept(k, again) <= Replacement(k, again)
  {
    assert MASK[0] == '*';
  }

  /** Up to its first star, rewritten text is the text it came from. */
  lemma {:induction false} StarFree(t: string, again: bool, m: nat)
    requires m <= |Rewrite(t, again)| && '*' !in Rewrite(t, again)[..m]
    ensures m <= |t| && Rewrite(t, again)[..m] == t[..m]
  {
    hide Prefix, Kept, Replacement, Matches;
    var r := Rewrite(t, again);
    if t != "" && m > 0 {
      var a := Alternative(t, 0);
      if a.Some? {
        var q := Kept(a.value, again);
        KeptIsPrefix(a.value, again);
        assert q <= r && r[|q|] == '*';
        assert forall i :: 0 <= i < m ==> r[..m][i] == r[i];
        assert m <= |q|;
        MatchStarts(t, a.value);
        assert r[..m] == q[..m] == Prefix(a.value)[..m] == t[..m];
      } else {
        assert r[1..] == Rewrite(t[1..], again) && r[1..][..m - 1] == r[..m][1..];
        StarFree(t[1..], again, m - 1);
        assert r[..m] == [t[0]] + r[1..][..m - 1];
      }
    }
  }

  lemma MatchStarts(t: string, k: nat)
    requires k < |PREFIXES| && Matches(t, k)
    ensures Prefix(k) <= t && |Prefix(k)| < |t|
  {
    hide Prefix;
  }

  /** Rewriting never creates a match at the start that was not there before. */
  lemma NoNewMatch(t: string, again: bool, k: nat)
    requires k < |PREFIXES| && Matches(Rewrite(t, again), k)
    ensures Matches(t, k)
  {
    hide Prefix, Rewrite;
    var r, n := Rewrite(t, again), |Prefix(k)|;
    KeptIsPrefix(k, false);
    assert r[..n + 1] == Prefix(k) + [r[n]];
    StarFree(t, again, n + 1);
    assert Prefix(k) == r[..n] == t[..n + 1][..n] && t[n] == t[..n + 1][n] == r[n];
  }

  /** No match starts at a character that starts no prefix. */
  predicate Inert(c: char) {
    c != 'g' && c != 's' && c != 'h'
  }

  lemma FirstCharacters(k: nat)
    requires k < |PREFIXES|
    ensures |Prefix(k)| > 0 && !Inert(Prefix(k)[0])
  {
  }

  lemma {:induction false} SkipInert(w: string, rest: string)
    requires forall i :: 0 <= i < |w| ==> Inert(w[i])
    ensures Pass(w + rest) == w + Pass(rest)
  {
    hide Prefix, Inert;
    if w == "" {
      assert w + rest == rest;
    } else {
      assert (w + rest)[1..] == w[1..] + rest;
      SkipInert(w[1..], rest);
      if Alternative(w + rest, 0).Some? {
        FirstCharacters(Alternative(w + rest, 0).value);
      }
      assert [w[0]] + w[1..] == w;
    }
  }

  predicate Separator(c: char) {
    c == '_' || c == '-'
  }

  /** Every prefix ends in a separator; only two have one before that. */
  lemma Separators(k: nat, i: nat)
    requires k < |PREFIXES| && i < |Prefix(k)| && k != OPENROUTER
    ensures Separator(Prefix(k)[i]) <==> i == |Prefix(k)| - 1 || (k == 0 && i == 6)
  {
  }

  lemma LastSeparator(k: nat)
    requires k < |PREFIXES|
    ensures |Prefix(k)| > 0 && Separator(Prefix(k)[|Prefix(k)| - 1])
  {
  }

  /** No match starts and ends inside a prefix, save the generic sk- inside sk-or-v1-. */
  lemma InsidePrefix(k: nat, i: nat, j: nat)
    requires k < |PREFIXES| && j < |PREFIXES| && i < |Prefix(k)| && k != OPENROUTER
    ensures !Matches(Prefix(k)[i..], j)
  {
    hide Prefix;
    var p, q := Prefix(k), Prefix(j);
    LastSeparator(j);
    if Matches(p[i..], j) {
      assert p[i + |q| - 1] == q[|q| - 1];
      Separators(k, i + |q| - 1);
      InsideGithubPat(i, j);
    }
  }

  lemma InsideGithubPat(i: nat, j: nat)
    requires j < |PREFIXES| && i < |Prefix(0)|
    ensures Matches(Prefix(0)[i..], j) ==> i + |Prefix(j)| != 7
  {
    FirstCharacters(j);
    if i + |Prefix(j)| == 7 {
      assert i == 3 || i == 4;
      assert Prefix(0)[3..][..3] == "hub" && Prefix(0)[4] == 'u';
    }
  }

  lemma MatchBeforeStar(w: string, rest: string, k: nat)
    requires k < |PREFIXES| && rest != "" && rest[0] == '*' && '*' !in w
    ensures Matches(w + rest, k) ==> Matches(w, k)
  {
    hide Prefix;
    KeptIsPrefix(k, false);
    assert (w + rest)[|w|] == '*';
  }

  /** Text without a star and without a match of its own, before a star, is copied. */
  lemma {:induction false} CopyQuiet(w: string, rest: string)
    requires rest != "" && rest[0] == '*' && '*' !in w
    requires forall i, j :: 0 <= i < |w| && 0 <= j < |PREFIXES| ==> !Matches(w[i..], j)
    ensures Pass(w + rest) == w + Pass(rest)
  {
    hide Prefix, Matches, MatchLength, Replacement;
    var s := w + rest;
    if w == "" {
      assert s == rest;
    } else {
      assert w[0..] == w;
      forall k | 0 <= k < |PREFIXES| ensures !Matches(s, k) {
        assert !Matches(w[0..], k);
        MatchBeforeStar(w, rest, k);
      }
      assert s[1..] == w[1..] + rest;
      forall i, j | 0 <= i < |w[1..]| && 0 <= j < |PREFIXES| ensures !Matches(w[1..][i..], j) {
        assert w[1..][i..] == w[i + 1..];
      }
      CopyQuiet(w[1..], rest);
      assert [w[0]] + w[1..] == w;
    }
  }

  lemma CopyPrefix(k: nat, rest: string)
    requires k < |PREFIXES| && k != OPENROUTER && rest != "" && rest[0] == '*'
    ensures Pass(Prefix(k) + rest) == Prefix(k) + Pass(rest)
  {
    hide Prefix, Matches, Rewrite;
    KeptIsPrefix(k, false);
    forall i, j | 0 <= i < |Prefix(k)| && 0 <= j < |PREFIXES| ensures !Matches(Prefix(k)[i..], j) {
      InsidePrefix(k, i, j);
    }
    CopyQuiet(Prefix(k), rest);
  }

  lemma MaskIsInert()
    ensures forall i :: 0 <= i < |MASK| ==> Inert(MASK[i])
    ensures forall i :: 0 <= i < |"-v1-" + MASK| ==> Inert(("-v1-" + MASK)[i])
    ensures MASK != "" && MASK[0] == '*'
  {
  }

  lemma PassMasked(k: nat, rest: string)
    requires k < |PREFIXES| && k != OPENROUTER
    ensures Pass(Prefix(k) + MASK + rest) == Prefix(k) + MASK + Pass(rest)
  {
    hide Prefix, Rewrite, Inert;
    MaskIsInert();
    assert Prefix(k) + MASK + rest == Prefix(k) + (MASK + rest);
    CopyPrefix(k, MASK + rest);
    SkipInert(MASK, rest);
  }

  /** A masked OpenRouter key still shows sk-or, which the generic alternative matches. */
  lemma RestOfOpenRouter(rest: string)
    ensures var s := Prefix(OPENROUTER) + MASK + rest;
            && Alternative(s, 0) == Some(GENERIC_SK)
            && MatchLength(s, GENERIC_SK) == 5
            && s[5..] == "-v1-" + MASK + rest
  {
    var s := Prefix(OPENROUTER) + MASK + rest;
    assert s[9] == '*';
    assert s[..3] == "sk-" && s[3] == 'o' && s[4] == 'r' && s[5] == '-';
    assert !Matches(s, OPENROUTER) && Matches(s, GENERIC_SK);
    assert s[0] == 's' && !Matches(s, 0) && !Matches(s, 2) && !Matches(s, 3) && !Matches(s, 4);
    var t := s[3..];
    assert WordRun(t[1..][1..]) == 0;
    assert WordRun(t[1..]) == 1;
  }

  lemma PassReplacement(k: nat, again: bool, rest: string)
    requires k < |PREFIXES|
    ensures Pass(Replacement(k, again) + rest) == Replacement(k, true) + Pass(rest)
  {
    hide Prefix, Inert, MatchLength, Matches;
    MaskIsInert();
    if k != OPENROUTER {
      assert Replacement(k, again) + rest == Prefix(k) + MASK + rest;
      PassMasked(k, rest);
    } else if again {
      assert Replacement(k, again) + rest == Prefix(GENERIC_SK) + MASK + ("-v1-" + MASK + rest);
      PassMasked(GENERIC_SK, "-v1-" + MASK + rest);
      SkipInert("-v1-" + MASK, rest);
    } else {
      assert Replacement(k, again) + rest == Prefix(OPENROUTER) + MASK + rest;
      RestOfOpenRouter(rest);
      SkipInert("-v1-" + MASK, rest);
      assert Replacement(GENERIC_SK, false) == Prefix(GENERIC_SK) + MASK;
    }
  }

  /** A pass over rewritten text does what the second rewriting does to the original. */
  lemma {:induction false} PassOverRewritten(t: string, again: bool)
    ensures Pass(Rewrite(t, again)) == Rewrite(t, true)
  {
    hide Prefix, Matches, Replacement;
    if t != "" {
      var a := Alternative(t, 0);
      if a.Some? {
        var rest := t[MatchLength(t, a.value)..];
        PassOverRewritten(rest, again);
        PassReplacement(a.value, again, Rewrite(rest, again));
      } else {
        PassOverRewritten(t[1..], again);
        var r := Rewrite(t, again);
        if Alternative(r, 0).Some? {
          NoNewMatch(t, again, Alternative(r, 0).value);
        }
        assert r[1..] == Rewrite(t[1..], again);
      }
    }
  }

  // ---- The prefix reported for a match ----

  /** The first prefix, from k on, that the matched text starts with. */
  function PrefixOfMatch(text: string, k: nat): string
    requires k <= |PREFIXES|
    decreases |PREFIXES| - k
  {
    if k == |PREFIXES| then ""
    else if Prefix(k) <= text then Prefix(k)
    else PrefixOfMatch(text, k + 1)
  }

  /** Two prefixes start the same text only if they are the two sk- ones. */
  lemma OnlySkPrefixesNest(s: string, j: nat, k: nat)
    requires j < k < |PREFIXES| && Prefix(j) <= s && Prefix(k) <= s
    ensures j == OPENROUTER && k == GENERIC_SK
  {
    assert s[0] == Prefix(j)[0] == Prefix(k)[0];
    assert s[1] == Prefix(j)[1] == Prefix(k)[1];
    assert s[2] == Prefix(j)[2] == Prefix(k)[2];
  }

  /** The prefix read back from a match is the alternative that matched, never an earlier or a later one. */
  lemma ReportedPrefixMatched(s: string)
    requires Alternative(s, 0).Some?
    ensures var k := Alternative(s, 0).value;
            PrefixOfMatch(s[..MatchLength(s, k)], 0) == Prefix(k)
  {
    hide Prefix;
    var k := Alternative(s, 0).value;
    var text := s[..MatchLength(s, k)];
    forall j | 0 <= j < k ensures !(Prefix(j) <= text) {
      if Prefix(j) <= text {
        OnlySkPrefixesNest(text, j, k);
        NoOpenRouterInSkRun(s);
      }
    }
    FirstPrefix(text, 0, k);
  }

  lemma NoOpenRouterInSkRun(s: string)
    requires Matches(s, GENERIC_SK)
    ensures !(Prefix(OPENROUTER) <= s[..MatchLength(s, GENERIC_SK)])
  {
    var text := s[..MatchLength(s, GENERIC_SK)];
    assert forall i :: 3 <= i < |text| ==> text[i] == s[3..][i - 3] && WordChar(text[i]);
    assert Prefix(OPENROUTER)[5] == '-' && |Prefix(OPENROUTER)| > 5;
    assert |text| > 5 ==> text[5] != '-';
  }

  lemma {:induction false} FirstPrefix(text: string, i: nat, k: nat)
    requires i <= k < |PREFIXES| && Prefix(k) <= text && forall j :: i <= j < k ==> !(Prefix(j) <= text)
    ensures PrefixOfMatch(text, i) == Prefix(k)
    decreases k - i
  {
    hide Prefix;
    if i < k {
      FirstPrefix(text, i + 1, k);
    }
  }

  // ---- Redaction ----

  /** One pass over the text: each match becomes the prefix read back from it, then the mask. */
  function Redact(t: string): string {
    if t == "" then ""
    else
      var m := Alternative(t, 0);
      if m.Some? then
        var n := MatchLength(t, m.value);
        PrefixOfMatch(t[..n], 0) + MASK + Redact(t[n..])
      else [t[0]] + Redact(t[1..])
  }

  lemma {:induction false} RedactIsPass(t: string)
    ensures Redact(t) == Pass(t)
  {
    hide Prefix, MatchLength, PrefixOfMatch, Matches;
    if t != "" {
      var a := Alternative(t, 0);
      if a.Some? {
        ReportedPrefixMatched(t);
        RedactIsPass(t[MatchLength(t, a.value)..]);
        assert Replacement(a.value, false) == Prefix(a.value) + MASK;
      } else {
        RedactIsPass(t[1..]);
      }
    }
  }

  // ---- What redaction does at a secret, and elsewhere ----

  /** The secret formats, and the characters of a secret, spelled out again: the laws below do not rest on the pattern. */
  const FORMATS: seq<string> := ["github_pat_", "sk-or-v1-", "gho_", "ghp_", "ghs_", "sk-", "hf_"]

  predicate IsSecret(run: string) {
    && run != ""
    && forall i :: 0 <= i < |run| ==>
         'a' <= run[i] <= 'z' || 'A' <= run[i] <= 'Z' || '0' <= run[i] <= '9' || run[i] == '_'
  }

  /** The text goes on with a secret. */
  predicate GoesOn(rest: string) {
    rest != "" && IsSecret(rest[..1])
  }

  lemma SecretChars(run: string)
    ensures IsSecret(run) <==> run != "" && forall i :: 0 <= i < |run| ==> WordChar(run[i])
  {
  }

  lemma FormatIndex(prefix: string) returns (k: nat)
    requires prefix in FORMATS
    ensures k < |PREFIXES| && Prefix(k) == prefix && (k == GENERIC_SK <==> prefix == "sk-")
  {
    k :| k < |PREFIXES| && FORMATS[k] == prefix;
  }

  /** The whole run is matched, up to the first character that is not part of a secret. */
  lemma RunIsMatched(k: nat, run: string, rest: string)
    requires k < |PREFIXES| && IsSecret(run) && !GoesOn(rest)
    ensures var t := Prefix(k) + run + rest;
            && Matches(t, k) && MatchLength(t, k) == |Prefix(k) + run|
            && t[..|Prefix(k)|] == Prefix(k) && t[|Prefix(k) + run|..] == rest
  {
    hide Prefix;
    SecretChars(run);
    if rest != "" {
      SecretChars(rest[..1]);
    }
    var t, n := Prefix(k) + run + rest, |Prefix(k)|;
    assert t[n] == run[0] && t[n..] == run + rest && Prefix(k) <= t;
    RunLength(run, rest);
  }

  lemma {:induction false} RunLength(run: string, rest: string)
    requires (forall i :: 0 <= i < |run| ==> WordChar(run[i])) && (rest != "" ==> !WordChar(rest[0]))
    ensures WordRun(run + rest) == |run|
  {
    if run == "" {
      assert run + rest == rest;
    } else {
      assert (run + rest)[1..] == run[1..] + rest;
      RunLength(run[1..], rest);
    }
  }

  /** Before its generic form, only an OpenRouter key can match a text that starts with a secret. */
  lemma FormatMatches(k: nat, run: string, rest: string)
    requires k < |PREFIXES| && IsSecret(run) && !GoesOn(rest)
    ensures var t, split := Prefix(k) + run + rest, k == GENERIC_SK && run == "or" && SplitsKey(rest);
            Alternative(t, 0) == Some(if split then OPENROUTER else k)
  {
    hide Prefix, Matches, MatchLength;
    var t := Prefix(k) + run + rest;
    RunIsMatched(k, run, rest);
    var a := Alternative(t, 0).value;
    if a != k {
      MatchStarts(t, a);
      MatchStarts(t, k);
      OnlySkPrefixesNest(t, a, k);
      KeySplits(run, rest);
    } else if k == GENERIC_SK && run == "or" && SplitsKey(rest) {
      SplitKeyMatches(rest);
    }
  }

  /** A generic key cut off after or, before the rest of an OpenRouter prefix and its secret. */
  predicate SplitsKey(rest: string) {
    |rest| > 4 && rest[..4] == "-v1-" && GoesOn(rest[4..])
  }

  lemma KeySplits(run: string, rest: string)
    requires IsSecret(run) && !GoesOn(rest) && Matches(Prefix(GENERIC_SK) + run + rest, OPENROUTER)
    ensures run == "or" && SplitsKey(rest)
  {
    var t := "sk-" + run + rest;
    SecretChars(run);
    if rest != "" {
      SecretChars(rest[..1]);
    }
    assert t[3] == 'o' && t[4] == 'r' && t[5] == '-' && t[6] == 'v' && t[7] == '1' && t[8] == '-' && WordChar(t[9]);
    assert t[3..] == run + rest;
    RunLength(run, rest);
    RunLength("or", t[5..]);
    assert t[3..] == "or" + t[5..];
    assert run == [t[3], t[4]] && rest == t[5..];
    assert rest[4..][..1] == [t[9]];
  }

  lemma SplitKeyMatches(rest: string)
    requires SplitsKey(rest)
    ensures Matches(Prefix(GENERIC_SK) + "or" + rest, OPENROUTER)
  {
    var t := "sk-" + "or" + rest;
    SecretChars(rest[4..][..1]);
    assert t == "sk-or" + rest && t[..9] == "sk-or" + rest[..4] && t[9] == rest[4];
  }

  /**
   * A secret in one of the formats is masked whole, wherever it ends, and redaction goes on behind it. The exception is
   * a generic key that is the start of an OpenRouter key.
   */
  lemma SecretIsMasked(prefix: string, run: string, rest: string)
    requires prefix in FORMATS && IsSecret(run) && !GoesOn(rest)
    ensures Redact(prefix + run + rest) == prefix + "***REDACTED***" + Redact(rest)
            <==> !(prefix == "sk-" && run == "or" && SplitsKey(rest))
  {
    hide Prefix, Matches, MatchLength, SplitsKey, PrefixOfMatch;
    var k := FormatIndex(prefix);
    var t := prefix + run + rest;
    FormatMatches(k, run, rest);
    RunIsMatched(k, run, rest);
    ReportedPrefixMatched(t);
    if Alternative(t, 0) != Some(k) {
      OpenRouterDiffers(t);
    }
  }

  lemma OpenRouterDiffers(t: string)
    requires Alternative(t, 0) == Some(OPENROUTER)
    ensures |Redact(t)| > 3 && Redact(t)[3] == 'o'
  {
    ReportedPrefixMatched(t);
    assert Prefix(OPENROUTER)[3] == 'o';
  }

  /** Where no format starts a secret, redaction copies the character and goes on. */
  lemma OtherTextIsCopied(c: char, rest: string)
    requires forall prefix | prefix in FORMATS ::
               !(prefix <= [c] + rest && |prefix| < |[c] + rest| && GoesOn(([c] + rest)[|prefix|..]))
    ensures Redact([c] + rest) == [c] + Redact(rest)
  {
    hide PrefixOfMatch, MatchLength, WordRun;
    var t := [c] + rest;
    assert t[1..] == rest;
    if Alternative(t, 0).Some? {
      var k := Alternative(t, 0).value;
      assert Prefix(k) in FORMATS;
      assert t[|Prefix(k)|..][..1] == [t[|Prefix(k)|]];
      SecretChars(t[|Prefix(k)|..][..1]);
    }
  }

  /** An OpenRouter key is among the text's matches. */
  predicate HasOpenRouterKey(t: string) {
    t != ""
    && var m := Alternative(t, 0);
       if m.Some? then m.value == OPENROUTER || HasOpenRouterKey(t[MatchLength(t, m.value)..])
       else HasOpenRouterKey(t[1..])
  }

  lemma ReplacementsAgree(k: nat, r1: string, r2: string)
    requires k < |PREFIXES|
    ensures Replacement(k, false) + r1 == Replacement(k, true) + r2 <==> k != OPENROUTER && r1 == r2
  {
    var a, b := Replacement(k, false) + r1, Replacement(k, true) + r2;
    if k == OPENROUTER {
      assert a[3] == 'o' && b[3] == '*';
    } else {
      var n := |Replacement(k, false)|;
      assert a[n..] == r1 && b[n..] == r2;
    }
  }

  lemma {:induction false} RewritesAgree(t: string)
    ensures Rewrite(t, false) == Rewrite(t, true) <==> !HasOpenRouterKey(t)
  {
    hide Prefix, Replacement, MatchLength, Matches;
    if t != "" {
      var a := Alternative(t, 0);
      if a.Some? {
        var rest := t[MatchLength(t, a.value)..];
        RewritesAgree(rest);
        ReplacementsAgree(a.value, Rewrite(rest, false), Rewrite(rest, true));
      } else {
        RewritesAgree(t[1..]);
        assert Rewrite(t, false)[1..] == Rewrite(t[1..], false) && Rewrite(t, true)[1..] == Rewrite(t[1..], true);
      }
    }
  }

  /** A second pass changes only what is left of OpenRouter prefixes: sk-or-v1- loses or; nothing else matches again. */
  lemma RedactTwice(t: string)
    ensures Redact(Redact(t)) == Rewrite(t, true)
    ensures Redact(Redact(t)) == Redact(t) <==> !HasOpenRouterKey(t)
  {
    RedactIsPass(t);
    RedactIsPass(Redact(t));
    PassOverRewritten(t, false);
    RewritesAgree(t);
  }

  /** Two passes are a fixpoint for every text. */
  lemma TwoPassesAreFixpoint(t: string)
    ensures Redact(Redact(Redact(t))) == Redact(Redact(t))
  {
    RedactTwice(t);
    RedactIsPass(Rewrite(t, true));
    PassOverRewritten(t, true);
  }

  // ---- What is copied and what is masked ----

  datatype Piece = Copied(c: char) | Secret(k: nat, run: string)

  function Pieces(t: string): (ps: seq<Piece>)
    ensures forall i :: 0 <= i < |ps| && ps[i].Secret? ==> ps[i].k < |PREFIXES| && ps[i].run != ""
    ensures forall i, j :: 0 <= i < |ps| && ps[i].Secret? && 0 <= j < |ps[i].run| ==> WordChar(ps[i].run[j])
  {
    if t == "" then []
    else
      var m := Alternative(t, 0);
      if m.Some? then
        var n := MatchLength(t, m.value);
        [Secret(m.value, t[|Prefix(m.value)|..n])] + Pieces(t[n..])
      else [Copied(t[0])] + Pieces(t[1..])
  }

  /** The pieces put back together: as they were, or with the runs of secrets masked. */
  function Join(ps: seq<Piece>, masked: bool): string
    requires forall i :: 0 <= i < |ps| && ps[i].Secret? ==> ps[i].k < |PREFIXES|
  {
    if ps == [] then ""
    else
      Shown(ps[0], masked) + Join(ps[1..], masked)
  }

  function Shown(p: Piece, masked: bool): string
    requires p.Secret? ==> p.k < |PREFIXES|
  {
    match p
    case Copied(c) => [c]
    case Secret(k, run) => Prefix(k) + if masked then MASK else run
  }

  lemma JoinFirst(p: Piece, ps: seq<Piece>, masked: bool)
    requires forall i :: 0 <= i < |[p] + ps| && ([p] + ps)[i].Secret? ==> ([p] + ps)[i].k < |PREFIXES|
    ensures forall i :: 0 <= i < |ps| && ps[i].Secret? ==> ps[i].k < |PREFIXES|
    ensures p.Secret? ==> p.k < |PREFIXES|
    ensures Join([p] + ps, masked) == Shown(p, masked) + Join(ps, masked)
  {
    assert ([p] + ps)[0] == p && ([p] + ps)[1..] == ps;
    assert forall i :: 0 <= i < |ps| ==> ps[i] == ([p] + ps)[i + 1];
  }

  /** Redaction masks the run of every secret and copies the rest, in order. */
  lemma {:induction false} OnlyRunsAreMasked(t: string)
    ensures Join(Pieces(t), false) == t && Join(Pieces(t), true) == Redact(t)
  {
    hide Prefix, PrefixOfMatch, MatchLength, Matches, Join;
    if t == "" {
      NothingJoined();
    } else {
      var a := Alternative(t, 0);
      var rest := if a.Some? then t[MatchLength(t, a.value)..] else t[1..];
      OnlyRunsAreMasked(rest);
      assert Pieces(t) == [Pieces(t)[0]] + Pieces(rest);
      JoinFirst(Pieces(t)[0], Pieces(rest), false);
      JoinFirst(Pieces(t)[0], Pieces(rest), true);
      if a.Some? {
        var k, n := a.value, MatchLength(t, a.value);
        ReportedPrefixMatched(t);
        MatchStarts(t, k);
        assert t == t[..|Prefix(k)|] + t[|Prefix(k)|..n] + t[n..];
      }
    }
  }

  lemma NothingJoined()
    ensures Join([], false) == "" && Join([], true) == ""
  {
  }

  /** A log record: its message, or a format with arguments that render to the given text. */
  class LogRecord {
    var msg: string
    var rendered: Option<string>

    constructor (m: string, r: Option<string>)
      ensures msg == m && rendered == r
    {
      msg, rendered := m, r;
    }

    function GetMessage(): string
      reads this
    {
      if rendered.Some? then rendered.value else msg
    }
  }

  /** The filter lets every record through and leaves it alone when there is nothing to redact. */
  method Filter(record: LogRecord) returns (allow: bool)
    modifies record
    ensures allow
    ensures record.GetMessage() == Redact(old(record.GetMessage()))
    ensures Redact(old(record.GetMessage())) == old(record.GetMessage()) ==> unchanged(record)
  {
    var original := record.GetMessage();
    var redacted := Redact(original);
    if redacted != original {
      record.msg := redacted;
      record.rendered := None;
    }
    return true;
  }
}
