/**
 * The application configuration (src/config/index.js): which required build-time variables are
 * missing, the feature flag for AI generation, and the per-plan usage ceilings, whose outreach
 * entries come from `parseInt(variable) || default`.
 */
module Config {
  import opened Wrappers
  import opened Text
  import opened Sequences

  /** The build-time environment, `import.meta.env`: a name absent from the map is undefined. */
  type Env = map<string, string>

  const RequiredEnvVars: seq<string> :=
    ["VITE_SUPABASE_URL", "VITE_SUPABASE_ANON_KEY", "VITE_OPENAI_API_KEY", "VITE_STRIPE_PUBLISHABLE_KEY"]

  /** `import.meta.env[name]` is truthy: defined and not empty. */
  predicate HasValue(env: Env, name: string) {
    name in env && env[name] != ""
  }

  /** `missingEnvVars`: the required names whose variable has no value, in declaration order. */
  function MissingEnvVars(env: Env): (r: seq<string>)
    ensures forall name :: name in r <==> name in RequiredEnvVars && !HasValue(env, name)
    ensures IsSubsequence(r, RequiredEnvVars)
    ensures r == [] <==> forall name :: name in RequiredEnvVars ==> HasValue(env, name)
  {
    var r := Filter(RequiredEnvVars, name => !HasValue(env, name));
    FilterSubsequence(RequiredEnvVars, name => !HasValue(env, name));
    assert r != [] ==> r[0] in r;
    r
  }

  /** `features.aiGeneration`: on only when the variable is exactly the text `true`. */
  function AiGenerationEnabled(env: Env): (on: bool)
    ensures on ==> "VITE_ENABLE_AI_GENERATION" in env
  {
    "VITE_ENABLE_AI_GENERATION" in env && env["VITE_ENABLE_AI_GENERATION"] == "true"
  }

  // ---- parseInt ----

  predicate IsDigitIn(c: char, radix: nat) {
    if radix == 16 then '0' <= c <= '9' || 'a' <= c <= 'f' || 'A' <= c <= 'F'
    else '0' <= c <= '9'
  }

  function DigitValue(c: char): nat {
    if '0' <= c <= '9' then c as int - '0' as int
    else if 'a' <= c <= 'f' then c as int - 'a' as int + 10
    else if 'A' <= c <= 'F' then c as int - 'A' as int + 10
    else 0
  }

  /** The length of the longest prefix of `s` made of digits in `radix`. */
  function DigitRun(s: string, radix: nat): (n: nat)
    ensures n <= |s|
    ensures forall k :: 0 <= k < n ==> IsDigitIn(s[k], radix)
    ensures n < |s| ==> !IsDigitIn(s[n], radix)
    decreases |s|
  {
    if |s| > 0 && IsDigitIn(s[0], radix) then 1 + DigitRun(s[1..], radix) else 0
  }

  /** The number a string of digits denotes in `radix`. */
  function DigitsValue(ds: string, radix: nat): nat
    decreases |ds|
  {
    if |ds| == 0 then 0 else DigitsValue(ds[..|ds| - 1], radix) * radix + DigitValue(ds[|ds| - 1])
  }

  /**
   * `parseInt(s)` without a radix, with `None` for NaN: leading whitespace is skipped, one sign is
   * read, and the rest is read by `ParseUnsigned`. Text whose first visible character is neither a
   * sign nor a decimal digit is NaN.
   */
  function ParseInt(s: string): (r: Option<int>)
    ensures var t := TrimStart(s);
      t == [] || (t[0] != '-' && t[0] != '+' && !IsDigitIn(t[0], 10)) ==> r.None?
  {
    var t := TrimStart(s);
    if |t| > 0 && (t[0] == '-' || t[0] == '+') then ParseUnsigned(t[1..], t[0] == '-')
    else ParseUnsigned(t, false)
  }

  /** The text after the sign: a `0x` or `0X` prefix selects base 16, otherwise it is base 10. */
  function ParseUnsigned(u: string, negative: bool): Option<int> {
    if |u| >= 2 && u[0] == '0' && (u[1] == 'x' || u[1] == 'X') then ReadRun(u[2..], 16, negative)
    else ReadRun(u, 10, negative)
  }

  /** The longest run of digits at the start of `v` is the number; anything after it is ignored. */
  function ReadRun(v: string, radix: nat, negative: bool): Option<int> {
    var n := DigitRun(v, radix);
    if n == 0 then None
    else
      var magnitude: int := DigitsValue(v[..n], radix);
      Some(if negative then -magnitude else magnitude)
  }

  lemma {:induction false} TrimStartSkipsSpace(ws: string, t: string)
    requires forall k :: 0 <= k < |ws| ==> IsJsSpace(ws[k])
    requires t == [] || !IsJsSpace(t[0])
    ensures TrimStart(ws + t) == t
    decreases |ws|
  {
    if |ws| > 0 {
      assert (ws + t)[1..] == ws[1..] + t;
      TrimStartSkipsSpace(ws[1..], t);
    } else {
      assert ws + t == t;
    }
  }

  /** The digit run of decimal digits followed by a non-digit is exactly those digits. */
  lemma {:induction false} DigitRunOfDecimal(ds: string, rest: string)
    requires forall k :: 0 <= k < |ds| ==> '0' <= ds[k] <= '9'
    requires rest == [] || !IsDigitIn(rest[0], 10)
    ensures DigitRun(ds + rest, 10) == |ds|
    decreases |ds|
  {
    if |ds| > 0 {
      assert (ds + rest)[0] == ds[0];
      assert (ds + rest)[1..] == ds[1..] + rest;
      DigitRunOfDecimal(ds[1..], rest);
    } else {
      assert ds + rest == rest;
    }
  }

  /** A run of decimal digits is read as that number, whatever non-digit text follows it. */
  lemma ReadDecimalRun(ds: string, rest: string, negative: bool)
    requires |ds| > 0 && forall k :: 0 <= k < |ds| ==> '0' <= ds[k] <= '9'
    requires rest == [] || !IsDigitIn(rest[0], 10)
    ensures ReadRun(ds + rest, 10, negative) ==
      Some(if negative then -(DigitsValue(ds, 10) as int) else DigitsValue(ds, 10) as int)
  {
    DigitRunOfDecimal(ds, rest);
    assert (ds + rest)[..|ds|] == ds by { TakeOfAppend(ds, rest); }
    ReadRunOfPrefix(ds + rest, ds, negative);
  }

  lemma TakeOfAppend(a: string, b: string)
    ensures (a + b)[..|a|] == a
  {
  }

  /** When the digit run of `u` is `ds`, the number read is the value of `ds`. */
  lemma ReadRunOfPrefix(u: string, ds: string, negative: bool)
    requires DigitRun(u, 10) == |ds| > 0
    requires u[..|ds|] == ds
    ensures ReadRun(u, 10, negative) ==
      Some(if negative then -(DigitsValue(ds, 10) as int) else DigitsValue(ds, 10) as int)
  {
  }

  /**
   * Text that starts with a decimal digit is read in base 10 unless it starts with a `0` followed
   * by `x` or `X`.
   */
  lemma DecimalUnlessPrefixed(ds: string, rest: string, negative: bool)
    requires |ds| > 0 && forall k :: 0 <= k < |ds| ==> '0' <= ds[k] <= '9'
    requires rest == [] || ds != "0" || (rest[0] != 'x' && rest[0] != 'X')
    ensures ParseUnsigned(ds + rest, negative) == ReadRun(ds + rest, 10, negative)
  {
    var u := ds + rest;
    if |u| >= 2 {
      assert u[1] == if |ds| >= 2 then ds[1] else rest[0];
      if |ds| == 1 {
        assert ds == [ds[0]];
      }
    }
  }

  /**
   * A run of decimal digits after optional whitespace and an optional minus sign is read as that
   * number, whatever non-digit text follows the run, except that a lone `0` followed by `x` or `X`
   * is a base-16 prefix.
   */
  lemma ParseIntDecimal(ws: string, negative: bool, ds: string, rest: string)
    requires forall k :: 0 <= k < |ws| ==> IsJsSpace(ws[k])
    requires |ds| > 0 && forall k :: 0 <= k < |ds| ==> '0' <= ds[k] <= '9'
    requires rest == [] || (!IsDigitIn(rest[0], 10) && (ds != "0" || (rest[0] != 'x' && rest[0] != 'X')))
    ensures ParseInt(ws + (if negative then "-" else "") + ds + rest) ==
      Some(if negative then -(DigitsValue(ds, 10) as int) else DigitsValue(ds, 10) as int)
  {
    var sign := if negative then "-" else "";
    var u := ds + rest;
    var t := sign + u;
    RegroupRight(ws, sign, ds, rest);
    assert t[0] == if negative then '-' else ds[0];
    TrimStartSkipsSpace(ws, t);
    ParseIntAfterSign(ws + t, negative, u);
    DecimalUnlessPrefixed(ds, rest, negative);
    ReadDecimalRun(ds, rest, negative);
    calc {
      ParseInt(ws + (if negative then "-" else "") + ds + rest);
      ParseInt(ws + t);
      ParseUnsigned(u, negative);
      ReadRun(u, 10, negative);
      Some(if negative then -(DigitsValue(ds, 10) as int) else DigitsValue(ds, 10) as int);
    }
  }

  /** A letter other than a base-16 prefix ends the number: `parseInt("12x")` is 12. */
  lemma ParseIntStopsAtLetter()
    ensures ParseInt("12x") == Some(12)
  {
    ParseIntDecimal("", false, "12", "x");
    assert "" + "" + "12" + "x" == "12x";
    assert DigitsValue("12", 10) == 12;
  }

  /** Concatenation regrouped to the right. */
  lemma RegroupRight(a: string, b: string, c: string, d: string)
    ensures a + b + c + d == a + (b + (c + d))
  {
  }

  /** After the whitespace, a minus sign (or none) followed by a digit leaves the digits to `ParseUnsigned`. */
  lemma ParseIntAfterSign(s: string, negative: bool, u: string)
    requires |u| > 0 && '0' <= u[0] <= '9'
    requires TrimStart(s) == (if negative then "-" else "") + u
    ensures ParseInt(s) == ParseUnsigned(u, negative)
  {
    if negative {
      assert TrimStart(s)[1..] == u;
    }
  }

  /** `parseInt(undefined)` reads the text `undefined`, which is NaN. */
  lemma ParseIntUndefined()
    ensures ParseInt("undefined") == None
  {
    var s := "undefined";
    assert !IsJsSpace(s[0]);
    assert TrimStart(s) == s;
    assert !IsDigitIn(s[0], 10);
    assert DigitRun(s, 10) == 0;
  }

  /** `parseInt(import.meta.env[name]) || fallback`: NaN and 0 are falsy, so both give the fallback. */
  function NumberOr(env: Env, name: string, fallback: int): (r: int)
    ensures name !in env ==> r == fallback
    ensures name in env && ParseInt(env[name]).Some? && ParseInt(env[name]).value != 0 ==>
      r == ParseInt(env[name]).value
    ensures name in env && (ParseInt(env[name]).None? || ParseInt(env[name]) == Some(0)) ==> r == fallback
  {
    ParseIntUndefined();
    var parsed := ParseInt(if name in env then env[name] else "undefined");
    if parsed.Some? && parsed.value != 0 then parsed.value else fallback
  }

  // ---- the ceiling table ----

  /** The sentinel ceiling that stands for "unlimited". */
  const Unlimited: int := 999999

  /** The three usage ceilings of one plan. */
  datatype PlanLimits = PlanLimits(outreachPerMonth: int, investorSearches: int, templates: int)

  /** `config.limits`: one entry per plan tier. */
  datatype LimitTable = LimitTable(free: PlanLimits, pro: PlanLimits, premium: PlanLimits)

  function Limits(env: Env): (t: LimitTable)
    ensures t.free.investorSearches == 10 && t.free.templates == 3
    ensures t.pro.investorSearches == 100 && t.pro.templates == 10
    ensures t.premium.investorSearches == Unlimited && t.premium.templates == Unlimited
  {
    LimitTable(
      PlanLimits(NumberOr(env, "VITE_MAX_OUTREACH_PER_MONTH_FREE", 5), 10, 3),
      PlanLimits(NumberOr(env, "VITE_MAX_OUTREACH_PER_MONTH_PRO", 50), 100, 10),
      PlanLimits(NumberOr(env, "VITE_MAX_OUTREACH_PER_MONTH_PREMIUM", Unlimited), Unlimited, Unlimited))
  }

  /** The table when none of the three outreach variables is set. */
  function DefaultLimits(): LimitTable {
    Limits(map[])
  }

  /** Every ceiling of `a` is at most the matching ceiling of `b`. */
  predicate AtMost(a: PlanLimits, b: PlanLimits) {
    a.outreachPerMonth <= b.outreachPerMonth && a.investorSearches <= b.investorSearches && a.templates <= b.templates
  }

  /** Free allows 5, 10, 3; pro 50, 100, 10; premium the sentinel for all three; so each ceiling rises from tier to tier. */
  lemma DefaultCeilings()
    ensures DefaultLimits().free == PlanLimits(5, 10, 3)
    ensures DefaultLimits().pro == PlanLimits(50, 100, 10)
    ensures DefaultLimits().premium == PlanLimits(Unlimited, Unlimited, Unlimited)
    ensures AtMost(DefaultLimits().free, DefaultLimits().pro) && AtMost(DefaultLimits().pro, DefaultLimits().premium)
  {
  }

  /**
   * Setting only the free outreach variable, to any number above the pro default of 50, puts the
   * free ceiling above the pro one: the table does not keep its tiers in order by itself.
   */
  lemma OverrideCanInvertTiers(value: string)
    requires ParseInt(value).Some? && ParseInt(value).value > 50
    ensures Limits(map["VITE_MAX_OUTREACH_PER_MONTH_FREE" := value]).free.outreachPerMonth == ParseInt(value).value
    ensures !AtMost(Limits(map["VITE_MAX_OUTREACH_PER_MONTH_FREE" := value]).free,
                    Limits(map["VITE_MAX_OUTREACH_PER_MONTH_FREE" := value]).pro)
  {
    var env := map["VITE_MAX_OUTREACH_PER_MONTH_FREE" := value];
    assert "VITE_MAX_OUTREACH_PER_MONTH_PRO" !in env;
  }
}
