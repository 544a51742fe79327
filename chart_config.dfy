/** `getChartVariant`: which chart library the dashboard uses, from the
    `chart` query parameter, the stored `chartVariant` and the build-time
    `VITE_CHART_VARIANT`, each an optional string here (None for null or
    undefined); `threw` says that reading them raised an exception. */
module ChartConfig {
  import opened Values

  /** `x || fallback` on an optional string: null, undefined and '' are falsy. */
  function OrElse(x: Option<string>, fallback: string): string {
    if x.Some? && x.value != "" then x.value else fallback
  }

  /** `qp || ls || env || 'chartjs'`. */
  function Chosen(qp: Option<string>, ls: Option<string>, env: Option<string>): string {
    OrElse(qp, OrElse(ls, OrElse(env, "chartjs")))
  }

  predicate NonEmpty(x: Option<string>) {
    x.Some? && x.value != ""
  }

  /** The first non-empty source wins; with none, 'chartjs'. */
  lemma Precedence(qp: Option<string>, ls: Option<string>, env: Option<string>)
    ensures var sources := [qp, ls, env];
      forall k :: 0 <= k < 3 && NonEmpty(sources[k]) && (forall j :: 0 <= j < k ==> !NonEmpty(sources[j]))
        ==> Chosen(qp, ls, env) == sources[k].value
    ensures !NonEmpty(qp) && !NonEmpty(ls) && !NonEmpty(env) ==> Chosen(qp, ls, env) == "chartjs"
  {
    var sources := [qp, ls, env];
    forall k | 0 <= k < 3 && NonEmpty(sources[k]) && (forall j :: 0 <= j < k ==> !NonEmpty(sources[j]))
      ensures Chosen(qp, ls, env) == sources[k].value
    {
      if k == 1 {
        assert !NonEmpty(sources[0]);
      } else if k == 2 {
        assert !NonEmpty(sources[0]) && !NonEmpty(sources[1]);
      }
    }
  }

  /** ASCII `toLowerCase`. */
  function LowerChar(c: char): char {
    if 'A' <= c <= 'Z' then (c as int + 32) as char else c
  }

  function Lower(s: string): string {
    seq(|s|, i requires 0 <= i < |s| => LowerChar(s[i]))
  }

  function GetChartVariant(qp: Option<string>, ls: Option<string>, env: Option<string>, threw: bool): (v: string)
    ensures v == "recharts" || v == "chartjs"
  {
    if threw then "chartjs"
    else if Lower(Chosen(qp, ls, env)) == "recharts" then "recharts"
    else "chartjs"
  }

  /** `s` spells the lower-case word `word` with any mix of cases. */
  predicate SpellsIgnoringCase(s: string, word: string) {
    |s| == |word| && forall i :: 0 <= i < |s| ==> s[i] == word[i] || s[i] as int == word[i] as int - 32
  }

  lemma LowerCharMatches(c: char, w: char)
    requires 'a' <= w <= 'z'
    ensures LowerChar(c) == w <==> c == w || c as int == w as int - 32
  {
  }

  lemma {:induction false} LowerSpells(s: string, word: string)
    requires forall i :: 0 <= i < |word| ==> 'a' <= word[i] <= 'z'
    ensures Lower(s) == word <==> SpellsIgnoringCase(s, word)
  {
    if |s| == |word| {
      forall i | 0 <= i < |s|
        ensures Lower(s)[i] == word[i] <==> s[i] == word[i] || s[i] as int == word[i] as int - 32
      {
        LowerCharMatches(s[i], word[i]);
      }
      if SpellsIgnoringCase(s, word) {
        assert Lower(s) == word;
      }
    }
  }

  /** The result is 'recharts' exactly when nothing threw and the chosen
      value spells "recharts" in any case; every other chosen value gives
      'chartjs'. */
  lemma RechartsExactlyWhen(qp: Option<string>, ls: Option<string>, env: Option<string>, threw: bool)
    ensures GetChartVariant(qp, ls, env, threw) == "recharts" <==>
      !threw && SpellsIgnoringCase(Chosen(qp, ls, env), "recharts")
  {
    LowerSpells(Chosen(qp, ls, env), "recharts");
  }

  /** 'ReCharts' in the query selects recharts. */
  lemma MixedCaseSelects()
    ensures GetChartVariant(Some("ReCharts"), None, None, false) == "recharts"
  {
    RechartsExactlyWhen(Some("ReCharts"), None, None, false);
  }

  /** An unrecognised query value shadows a stored 'recharts'. */
  lemma UnknownQueryShadows()
    ensures GetChartVariant(Some("foo"), Some("recharts"), None, false) == "chartjs"
  {
    RechartsExactlyWhen(Some("foo"), Some("recharts"), None, false);
  }

  /** An empty query value falls through to the stored value. */
  lemma EmptyQueryFallsThrough()
    ensures GetChartVariant(Some(""), Some("RECHARTS"), None, false) == "recharts"
  {
    RechartsExactlyWhen(Some(""), Some("RECHARTS"), None, false);
  }

  /** Nothing set, or an exception, gives 'chartjs'. */
  lemma Defaults(qp: Option<string>, ls: Option<string>, env: Option<string>)
    ensures GetChartVariant(None, None, None, false) == "chartjs"
    ensures GetChartVariant(qp, ls, env, true) == "chartjs"
  {
    RechartsExactlyWhen(None, None, None, false);
  }
}
