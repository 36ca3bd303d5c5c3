/**
 * The front end's pricing helpers (src/lib/pricing.ts): which price table a model name selects, and
 * the short rendering of a duration. Prices are kept in cents per million tokens so that they are
 * exact; the cost arithmetic itself is floating point and not modelled.
 */
module Pricing {
  import opened Base
  import opened Text
  import Usage

  /** A price table, in cents per million tokens. */
  datatype ModelPricing = ModelPricing(input: nat, output: nat, cacheWrite: nat, cacheRead: nat)

  const OpusPricing := ModelPricing(1500, 7500, 1875, 150)
  const Sonnet45Pricing := ModelPricing(300, 1500, 375, 30)
  const Sonnet35Pricing := ModelPricing(300, 1500, 375, 30)
  const DefaultPricing := ModelPricing(300, 1500, 375, 30)

  /** The entries of `MODEL_PRICING` a name can select. */
  datatype PricingTier = Opus41 | Sonnet45 | Sonnet35 | Default

  predicate OpusName(n: string) { Contains(n, "opus-4") || Contains(n, "opus 4") }
  predicate Sonnet45Name(n: string) { Contains(n, "sonnet-4.5") || Contains(n, "sonnet 4.5") }
  predicate Sonnet35Name(n: string) { Contains(n, "sonnet-3.5") || Contains(n, "sonnet 3.5") || Contains(n, "35") }

  /**
   * The tier of `getPricingForModel`: the default for a missing or empty name; otherwise the
   * lower-cased name is tested for Opus 4, then Sonnet 4.5, then Sonnet 3.5, and the first match wins.
   */
  function TierOf(model: Option<string>): (t: PricingTier)
    ensures model.None? || model == Some("") ==> t == Default
    ensures model.Some? && model.value != "" ==>
      var n := ToLower(model.value);
      (t == Opus41 <==> OpusName(n))
      && (t == Sonnet45 <==> !OpusName(n) && Sonnet45Name(n))
      && (t == Sonnet35 <==> !OpusName(n) && !Sonnet45Name(n) && Sonnet35Name(n))
  {
    if model.None? || model.value == "" then Default
    else
      var n := ToLower(model.value);
      if OpusName(n) then Opus41
      else if Sonnet45Name(n) then Sonnet45
      else if Sonnet35Name(n) then Sonnet35
      else Default
  }

  function PricingOf(t: PricingTier): ModelPricing {
    match t
    case Opus41 => OpusPricing
    case Sonnet45 => Sonnet45Pricing
    case Sonnet35 => Sonnet35Pricing
    case Default => DefaultPricing
  }

  /** `getPricingForModel`: every name gets the Opus table or the (Sonnet) default table. */
  function GetPricingForModel(model: Option<string>): (p: ModelPricing)
    ensures p == OpusPricing || p == DefaultPricing
    ensures p == OpusPricing <==> TierOf(model) == Opus41
  {
    PricingOf(TierOf(model))
  }

  lemma LowerCharIdempotent(c: char)
    ensures LowerChar(LowerChar(c)) == LowerChar(c)
  {
  }

  lemma ToLowerIdempotent(s: string)
    ensures ToLower(ToLower(s)) == ToLower(s)
  {
    forall i | 0 <= i < |s| ensures ToLower(ToLower(s))[i] == ToLower(s)[i] {
      LowerCharIdempotent(s[i]);
    }
  }

  /** The choice ignores letter case: a name and its lower-cased form select the same tier. */
  lemma TierIgnoresCase(model: string)
    ensures TierOf(Some(model)) == TierOf(Some(ToLower(model)))
  {
    ToLowerIdempotent(model);
  }

  /** An upper-case Opus name is priced as Opus. */
  lemma UpperCaseOpusIsOpus()
    ensures TierOf(Some("Claude-Opus-4")) == Opus41
  {
    var n := ToLower("Claude-Opus-4");
    assert n == "claude-opus-4";
    assert At(n, "opus-4", 7);
    ContainsIff(n, "opus-4");
  }

  /** A name without 'o', '3' or 's' holds none of the tier markers of either side. */
  lemma NoMarkers(s: string)
    requires forall i :: 0 <= i < |s| ==> s[i] != 'o' && s[i] != '3' && s[i] != 's'
    ensures !Contains(s, "opus-4") && !Contains(s, "opus 4") && !Contains(s, "sonnet-4.5")
      && !Contains(s, "sonnet 4.5") && !Contains(s, "sonnet-3.5") && !Contains(s, "sonnet 3.5")
      && !Contains(s, "35") && !Contains(s, "sonnet-4") && !Contains(s, "3.5") && !Contains(s, "sonnet")
  {
    MissingFirstChar(s, "opus-4");
    MissingFirstChar(s, "opus 4");
    MissingFirstChar(s, "sonnet-4.5");
    MissingFirstChar(s, "sonnet 4.5");
    MissingFirstChar(s, "sonnet-3.5");
    MissingFirstChar(s, "sonnet 3.5");
    MissingFirstChar(s, "35");
    MissingFirstChar(s, "sonnet-4");
    MissingFirstChar(s, "3.5");
    MissingFirstChar(s, "sonnet");
  }

  /**
   * A model the back end does not price (zero cost) is charged the default Sonnet prices here: the
   * two sides disagree on unknown names such as "claude-haiku".
   */
  lemma UnknownModelPricedDifferently()
    ensures Usage.CostTier("claude-haiku") == Usage.Unpriced
    ensures GetPricingForModel(Some("claude-haiku")) == DefaultPricing && DefaultPricing.input > 0
  {
    var s := "claude-haiku";
    assert ToLower(s) == s;
    NoMarkers(s);
  }

  // ---------------------------------------------------------------------------------------------
  // Durations

  /**
   * `formatDuration` on whole seconds: "Ss" below a minute; "Mm" with " Ss" when seconds remain,
   * below an hour; "Hh" with " Mm" when minutes remain, dropping the seconds, from an hour on.
   */
  function FormatDuration(seconds: nat): string {
    if seconds < 60 then NatToString(seconds) + "s"
    else
      var minutes := seconds / 60;
      var remainingSeconds := seconds % 60;
      if minutes < 60 then
        if remainingSeconds > 0 then NatToString(minutes) + "m " + NatToString(remainingSeconds) + "s"
        else NatToString(minutes) + "m"
      else
        var hours := minutes / 60;
        var remainingMinutes := minutes % 60;
        if remainingMinutes > 0 then NatToString(hours) + "h " + NatToString(remainingMinutes) + "m"
        else NatToString(hours) + "h"
  }

  predicate AllDigits(s: string) {
    forall i :: 0 <= i < |s| ==> '0' <= s[i] <= '9'
  }

  datatype Token = Token(value: nat, unit: char)

  /** One "<digits><unit>" piece of a rendered duration. */
  function ReadToken(t: string): Option<Token> {
    if |t| >= 2 && AllDigits(t[..|t| - 1]) then Some(Token(DigitsValue(t[..|t| - 1]), Last(t))) else None
  }

  /** The number of seconds a rendered duration denotes, or None for any other text. */
  function ReadDuration(text: string): Option<nat> {
    match IndexOf(text, " ")
    case None =>
      var t := ReadToken(text);
      if t.None? then None
      else if t.value.unit == 's' then Some(t.value.value)
      else if t.value.unit == 'm' then Some(60 * t.value.value)
      else if t.value.unit == 'h' then Some(3600 * t.value.value)
      else None
    case Some(i) =>
      var first := ReadToken(text[..i]);
      var second := ReadToken(text[i + 1..]);
      if first.None? || second.None? then None
      else if first.value.unit == 'h' && second.value.unit == 'm' then Some(3600 * first.value.value + 60 * second.value.value)
      else if first.value.unit == 'm' && second.value.unit == 's' then Some(60 * first.value.value + second.value.value)
      else None
  }

  predicate NoSpace(s: string) {
    forall i :: 0 <= i < |s| ==> s[i] != ' '
  }

  lemma NoSpaceNotFound(s: string)
    requires NoSpace(s)
    ensures IndexOf(s, " ") == None
  {
    forall j: int ensures !At(s, " ", j) {
      if 0 <= j && j + 1 <= |s| {
        assert s[j..j + 1][0] == s[j];
      }
    }
  }

  lemma FirstSpace(x: string, y: string)
    requires NoSpace(x)
    ensures IndexOf(x + " " + y, " ") == Some(|x|)
  {
    var s := x + " " + y;
    assert s[|x|..|x| + 1] == " ";
    assert At(s, " ", |x|);
    forall j: int | 0 <= j < |x| ensures !At(s, " ", j) {
      assert s[j..j + 1][0] == x[j];
    }
  }

  lemma ReadRendered(n: nat, unit: char)
    ensures ReadToken(NatToString(n) + [unit]) == Some(Token(n, unit))
  {
    var t := NatToString(n) + [unit];
    assert t[..|t| - 1] == NatToString(n);
    NatToStringValue(n);
  }

  /** No digit string followed by a unit letter holds a space. */
  lemma RenderedNoSpace(n: nat, unit: char)
    requires unit != ' '
    ensures NoSpace(NatToString(n) + [unit])
  {
  }

  /** Two tokens around the first space are read as hours and minutes, or minutes and seconds. */
  lemma ReadSpaced(x: string, y: string)
    requires NoSpace(x) && ReadToken(x).Some? && ReadToken(y).Some?
    ensures var f, g := ReadToken(x).value, ReadToken(y).value;
      ReadDuration(x + " " + y)
         == if f.unit == 'h' && g.unit == 'm' then Some(3600 * f.value + 60 * g.value)
            else if f.unit == 'm' && g.unit == 's' then Some(60 * f.value + g.value)
            else None
  {
    var text := x + " " + y;
    FirstSpace(x, y);
    assert text[..|x|] == x;
    assert text[|x| + 1..] == y;
  }

  /** Reading back "<a><u> <b><v>" gives the value the two tokens denote. */
  lemma ReadTwo(a: nat, u: char, b: nat, v: char)
    requires u != ' '
    ensures ReadDuration(NatToString(a) + [u] + " " + NatToString(b) + [v])
         == if u == 'h' && v == 'm' then Some(3600 * a + 60 * b)
            else if u == 'm' && v == 's' then Some(60 * a + b)
            else None
  {
    var x := NatToString(a) + [u];
    var y := NatToString(b) + [v];
    assert NatToString(a) + [u] + " " + NatToString(b) + [v] == x + " " + y;
    RenderedNoSpace(a, u);
    ReadRendered(a, u);
    ReadRendered(b, v);
    ReadSpaced(x, y);
  }

  /** Reading back "<a><u>" gives the value the token denotes. */
  lemma ReadOne(a: nat, u: char)
    requires u != ' '
    ensures ReadDuration(NatToString(a) + [u])
         == if u == 's' then Some(a) else if u == 'm' then Some(60 * a) else if u == 'h' then Some(3600 * a) else None
  {
    RenderedNoSpace(a, u);
    NoSpaceNotFound(NatToString(a) + [u]);
    ReadRendered(a, u);
  }

  lemma ReadMinutes(seconds: nat)
    requires 60 <= seconds < 3600
    ensures ReadDuration(FormatDuration(seconds)) == Some(seconds)
  {
    var minutes := seconds / 60;
    if seconds % 60 > 0 {
      assert FormatDuration(seconds) == NatToString(minutes) + ['m'] + " " + NatToString(seconds % 60) + ['s'];
      ReadTwo(minutes, 'm', seconds % 60, 's');
    } else {
      assert FormatDuration(seconds) == NatToString(minutes) + ['m'];
      ReadOne(minutes, 'm');
    }
  }

  /** Hours and remaining minutes give back the seconds rounded down to the minute. */
  lemma HoursAndMinutes(seconds: nat)
    ensures 3600 * (seconds / 60 / 60) + 60 * (seconds / 60 % 60) == seconds - seconds % 60
  {
  }

  /** "<h>h <m>m" reads back as its hours and minutes. */
  lemma ReadHoursMinutes(seconds: nat)
    requires 3600 <= seconds && seconds / 60 % 60 > 0
    ensures ReadDuration(FormatDuration(seconds)) == Some(3600 * (seconds / 60 / 60) + 60 * (seconds / 60 % 60))
  {
    var hours, minutes := seconds / 60 / 60, seconds / 60 % 60;
    assert FormatDuration(seconds) == NatToString(hours) + ['h'] + " " + NatToString(minutes) + ['m'];
    ReadTwo(hours, 'h', minutes, 'm');
  }

  /** "<h>h" reads back as its hours. */
  lemma ReadWholeHours(seconds: nat)
    requires 3600 <= seconds && seconds / 60 % 60 == 0
    ensures ReadDuration(FormatDuration(seconds)) == Some(3600 * (seconds / 60 / 60))
  {
    var hours := seconds / 60 / 60;
    assert FormatDuration(seconds) == NatToString(hours) + ['h'];
    ReadOne(hours, 'h');
  }

  lemma ReadHours(seconds: nat)
    requires 3600 <= seconds
    ensures ReadDuration(FormatDuration(seconds)) == Some(seconds - seconds % 60)
  {
    HoursAndMinutes(seconds);
    if seconds / 60 % 60 > 0 {
      ReadHoursMinutes(seconds);
    } else {
      ReadWholeHours(seconds);
    }
  }

  /**
   * Reading a rendered duration back gives the seconds below an hour, and the seconds rounded down
   * to the minute from an hour on: nothing but the seconds of long durations is lost.
   */
  lemma ReadFormatDuration(seconds: nat)
    ensures ReadDuration(FormatDuration(seconds)) == Some(if seconds < 3600 then seconds else seconds - seconds % 60)
  {
    if seconds < 60 {
      ReadOne(seconds, 's');
      assert FormatDuration(seconds) == NatToString(seconds) + ['s'];
    } else if seconds < 3600 {
      ReadMinutes(seconds);
    } else {
      ReadHours(seconds);
    }
  }

  /** Below an hour, different durations render differently. */
  lemma FormatDurationInjectiveBelowHour(a: nat, b: nat)
    requires a < 3600 && b < 3600 && FormatDuration(a) == FormatDuration(b)
    ensures a == b
  {
    ReadFormatDuration(a);
    ReadFormatDuration(b);
  }
}
