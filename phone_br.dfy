/**
 * Normalisation of free-form phone text (src/lib/phoneBR.ts): digits are
 * extracted, an international `00` and a stray `0` before `55` are dropped,
 * a Brazilian parse is tried (country code, trunk `0`, carrier `0XX`, DDD,
 * nine-digit mobile rule), and otherwise the digits are accepted as an
 * international number of 10 to 15 digits (ITU-T Recommendation E.164,
 * clause 6, allows at most 15).
 */
module PhoneBR {
  import opened Wrappers
  import opened JsText

  /** `Required<NormalizeOptions>` */
  datatype Options = Options(brMobileOnly: bool, brAcceptCarrierPrefix0XX: bool)

  /** `NormalizeOptions`: each key may be left out. */
  datatype PartialOptions = PartialOptions(brMobileOnly: Option<bool>, brAcceptCarrierPrefix0XX: Option<bool>)

  /** `DEFAULT_OPTS` */
  const DefaultOptions := Options(true, true)

  /** `{ ...DEFAULT_OPTS, ...(options ?? {}) }` */
  function Resolve(options: PartialOptions): (o: Options)
    ensures options == PartialOptions(None, None) ==> o == DefaultOptions
    ensures o.brMobileOnly == (options.brMobileOnly != Some(false))
    ensures o.brAcceptCarrierPrefix0XX == (options.brAcceptCarrierPrefix0XX != Some(false))
  {
    Options(options.brMobileOnly.GetOr(DefaultOptions.brMobileOnly),
            options.brAcceptCarrierPrefix0XX.GetOr(DefaultOptions.brAcceptCarrierPrefix0XX))
  }

  /** `NormalizePhoneResult`: exactly one of the three outcomes. */
  datatype NormalizeResult =
    | BR(value: string, ddd: string, subscriber: string, cleaned: string)
    | Intl(value: string, cleaned: string)
    | Failure(reason: string, cleaned: string)

  const EmptyPhone := "Telefone vazio."
  const MissingAreaCode := "Número BR incompleto (faltou DDD). Informe DDD + número."
  const TooLong := "Número muito longo."
  const IntlLeadingZero := "Número internacional inválido (não pode iniciar com 0)."
  const NotBrazilian := "Não parece um número BR."
  const InvalidDDD := "DDD inválido."
  const MobileMustStartWith9 := "Número BR inválido (celular deve começar com 9)."
  const MobileOnlyRejected := "Número BR inválido para celular (parece fixo ou formato inesperado)."
  const InvalidBR := "Número BR inválido."

  // ------------------------------------------------------ the BR attempt

  /** `/^(1[1-9]|[2-9]\d)$/`: an area code from 11 to 99. */
  predicate ValidDDD(ddd: string) {
    |ddd| == 2 &&
    ((ddd[0] == '1' && '1' <= ddd[1] <= '9') || ('2' <= ddd[0] <= '9' && IsDigit(ddd[1])))
  }

  /** The pattern accepts exactly the two-digit codes whose value is 11 to 99. */
  lemma ValidDDDRange(ddd: string)
    requires |ddd| == 2 && AllDigits(ddd)
    ensures ValidDDD(ddd) <==> 11 <= DecimalValue(ddd) <= 99
  {
    assert ddd[..1][..0] == [];
    assert DecimalValue(ddd[..1]) == DigitValue(ddd[0]);
    assert ddd[..2 - 1] == ddd[..1];
    assert DecimalValue(ddd) == 10 * DigitValue(ddd[0]) + DigitValue(ddd[1]);
  }

  /** A nine-digit mobile subscriber number. */
  predicate MobileSubscriber(s: string) {
    |s| == 9 && s[0] == '9' && AllDigits(s)
  }

  /** An eight-digit fixed-line subscriber number (first digit 2 to 5). */
  predicate FixedLineSubscriber(s: string) {
    |s| == 8 && '2' <= s[0] <= '5' && AllDigits(s)
  }

  /** What every BR success looks like under `opts`. */
  predicate WellFormedBR(r: NormalizeResult, opts: Options)
    requires r.BR?
  {
    && r.value == "55" + r.ddd + r.subscriber
    && ValidDDD(r.ddd)
    && (MobileSubscriber(r.subscriber) || (!opts.brMobileOnly && FixedLineSubscriber(r.subscriber)))
  }

  /** `if (d.startsWith("55")) d = d.slice(2)` */
  function StripCountryCode(d: string): (r: string)
    ensures AllDigits(d) ==> AllDigits(r)
  {
    if StartsWith(d, "55") then d[2..] else d
  }

  /**
   * Trunk and carrier handling: a leading `0` is dropped; with carrier
   * prefixes accepted and at least 12 digits, `0` plus a two-digit carrier
   * code is dropped instead, but only when 10 or 11 digits remain.
   */
  function StripTrunk(d: string, opts: Options): (r: string)
    ensures |r| <= |d| && r == d[|d| - |r|..]
    ensures |d| - |r| == 0 <==> !StartsWith(d, "0")
    ensures |d| - |r| == 3 <==>
      StartsWith(d, "0") && opts.brAcceptCarrierPrefix0XX && (|d| == 13 || |d| == 14)
    ensures |d| - |r| == 0 || |d| - |r| == 1 || |d| - |r| == 3
  {
    if StartsWith(d, "0") then
      if opts.brAcceptCarrierPrefix0XX && |d| >= 12 then
        var maybe := d[1..];
        var afterCarrier := maybe[2..];
        assert afterCarrier == d[3..];
        if |afterCarrier| == 10 || |afterCarrier| == 11 then afterCarrier else maybe
      else d[1..]
    else d
  }

  /** The national part `tryNormalizeBR` validates: DDD followed by the local number. */
  function NationalPart(digitsRaw: string, opts: Options): (d: string)
    ensures AllDigits(digitsRaw) ==> AllDigits(d)
  {
    StripTrunk(StripCountryCode(digitsRaw), opts)
  }

  /** `tryNormalizeBR(digitsRaw, opts)`; it is only ever given digit strings. */
  function TryNormalizeBR(digitsRaw: string, opts: Options): (r: NormalizeResult)
    requires AllDigits(digitsRaw)
    ensures !r.Intl? && r.cleaned == digitsRaw
    ensures r.Failure? ==>
      r.reason in {NotBrazilian, InvalidDDD, MobileMustStartWith9, MobileOnlyRejected, InvalidBR}
    ensures r.BR? ==> WellFormedBR(r, opts)
    ensures r.BR? ==> 2 <= |NationalPart(digitsRaw, opts)| && r.ddd == NationalPart(digitsRaw, opts)[..2]
    ensures r == Failure(NotBrazilian, digitsRaw) <==>
      !(|NationalPart(digitsRaw, opts)| == 10 || |NationalPart(digitsRaw, opts)| == 11)
    ensures r == Failure(InvalidDDD, digitsRaw) <==>
      (|NationalPart(digitsRaw, opts)| == 10 || |NationalPart(digitsRaw, opts)| == 11)
      && !ValidDDD(NationalPart(digitsRaw, opts)[..2])
  {
    var d := NationalPart(digitsRaw, opts);
    if !(|d| == 10 || |d| == 11) then Failure(NotBrazilian, digitsRaw)
    else if !ValidDDD(d[..2]) then Failure(InvalidDDD, digitsRaw)
    else LocalResult(d[..2], d[2..], digitsRaw, opts)
  }

  /**
   * The local-number rules of `tryNormalizeBR`: nine digits must start with
   * `9`; eight digits starting 6 to 9 are an old mobile that gains a `9`;
   * eight digits starting 2 to 5 are a fixed line, accepted only outside
   * mobile-only mode; anything else is refused with the mode's reason.
   */
  function LocalResult(ddd: string, local: string, digitsRaw: string, opts: Options): (r: NormalizeResult)
    requires ValidDDD(ddd) && (|local| == 8 || |local| == 9) && AllDigits(local)
    ensures !r.Intl? && r.cleaned == digitsRaw
    ensures r.Failure? ==> r.reason in {MobileMustStartWith9, MobileOnlyRejected, InvalidBR}
    ensures r.BR? ==> WellFormedBR(r, opts) && r.ddd == ddd
    ensures |local| == 9 ==>
      (r.BR? <==> local[0] == '9')
      && (r.BR? ==> r.subscriber == local)
      && (!r.BR? ==> r == Failure(MobileMustStartWith9, digitsRaw))
    ensures |local| == 8 && '6' <= local[0] <= '9' ==> r.BR? && r.subscriber == "9" + local
    ensures |local| == 8 && '2' <= local[0] <= '5' ==>
      (r.BR? <==> !opts.brMobileOnly)
      && (r.BR? ==> r.subscriber == local)
      && (!r.BR? ==> r == Failure(MobileOnlyRejected, digitsRaw))
    ensures |local| == 8 && !('2' <= local[0] <= '9') ==>
      r == Failure(if opts.brMobileOnly then MobileOnlyRejected else InvalidBR, digitsRaw)
  {
    if |local| == 9 then
      if local[0] != '9' then Failure(MobileMustStartWith9, digitsRaw)
      else BR("55" + ddd + local, ddd, local, digitsRaw)
    else
      var first := local[0];
      if '6' <= first <= '9' then
        var mobile := "9" + local;
        BR("55" + ddd + mobile, ddd, mobile, digitsRaw)
      else if !opts.brMobileOnly && '2' <= first <= '5' then
        BR("55" + ddd + local, ddd, local, digitsRaw)
      else
        Failure(if opts.brMobileOnly then MobileOnlyRejected else InvalidBR, digitsRaw)
  }

  /** The local-number rules, for a national part of the right length with a valid DDD. */
  lemma LocalNumberRules(digitsRaw: string, opts: Options)
    requires AllDigits(digitsRaw)
    requires |NationalPart(digitsRaw, opts)| == 10 || |NationalPart(digitsRaw, opts)| == 11
    requires ValidDDD(NationalPart(digitsRaw, opts)[..2])
    ensures var local := NationalPart(digitsRaw, opts)[2..];
            var r := TryNormalizeBR(digitsRaw, opts);
            && (|local| == 9 ==>
                  (r.BR? <==> local[0] == '9')
                  && (r.BR? ==> r.subscriber == local)
                  && (!r.BR? ==> r == Failure(MobileMustStartWith9, digitsRaw)))
            && (|local| == 8 && '6' <= local[0] <= '9' ==>
                  r.BR? && r.subscriber == "9" + local)
            && (|local| == 8 && '2' <= local[0] <= '5' ==>
                  (r.BR? <==> !opts.brMobileOnly)
                  && (r.BR? ==> r.subscriber == local)
                  && (!r.BR? ==> r == Failure(MobileOnlyRejected, digitsRaw)))
            && (|local| == 8 && !('2' <= local[0] <= '9') ==>
                  r == Failure(if opts.brMobileOnly then MobileOnlyRejected else InvalidBR, digitsRaw))
  {
  }

  /** Every area code of 10 or below is refused with "DDD inválido.". */
  lemma AreaCodeTenOrBelowRejected(digitsRaw: string, opts: Options)
    requires AllDigits(digitsRaw)
    requires |NationalPart(digitsRaw, opts)| == 10 || |NationalPart(digitsRaw, opts)| == 11
    requires AllDigits(NationalPart(digitsRaw, opts)[..2])
    requires DecimalValue(NationalPart(digitsRaw, opts)[..2]) <= 10
    ensures TryNormalizeBR(digitsRaw, opts) == Failure(InvalidDDD, digitsRaw)
  {
    ValidDDDRange(NationalPart(digitsRaw, opts)[..2]);
  }

  /** A BR-shaped value is parsed back to itself. */
  lemma {:induction false} TryNormalizeBROfValue(ddd: string, subscriber: string, opts: Options)
    requires ValidDDD(ddd)
    requires MobileSubscriber(subscriber) || (!opts.brMobileOnly && FixedLineSubscriber(subscriber))
    ensures AllDigits("55" + ddd + subscriber)
    ensures TryNormalizeBR("55" + ddd + subscriber, opts)
         == BR("55" + ddd + subscriber, ddd, subscriber, "55" + ddd + subscriber)
  {
    var v := "55" + ddd + subscriber;
    assert forall i :: 0 <= i < |v| ==> IsDigit(v[i]) by {
      forall i | 0 <= i < |v| ensures IsDigit(v[i]) {
        if i >= 4 { assert v[i] == subscriber[i - 4]; }
      }
    }
    assert StartsWith(v, "55");
    assert StripCountryCode(v) == ddd + subscriber;
    assert (ddd + subscriber)[0] == ddd[0];
    assert !StartsWith(ddd + subscriber, "0");
    assert NationalPart(v, opts) == ddd + subscriber;
    assert (ddd + subscriber)[..2] == ddd;
    assert (ddd + subscriber)[2..] == subscriber;
  }

  // ------------------------------------------------------ normalizePhone

  /** The digits `normalizePhone` works on: non-digits, a leading `00` and a `0` before `55` removed. */
  function PreparedDigits(input: string): (d: string)
    ensures AllDigits(d)
    ensures d == [] <==> OnlyDigits(input) == [] || OnlyDigits(input) == "00"
  {
    var digits := OnlyDigits(input);
    var withoutIntl := if StartsWith(digits, "00") then digits[2..] else digits;
    assert AllDigits(withoutIntl) by {
      assert forall i :: 0 <= i < |withoutIntl| ==> withoutIntl[i] == digits[|digits| - |withoutIntl| + i];
    }
    if StartsWith(withoutIntl, "0") && StartsWith(withoutIntl[1..], "55") then withoutIntl[1..]
    else withoutIntl
  }

  /** `normalizePhone(input, options)` */
  function NormalizePhone(input: string, options: PartialOptions): (r: NormalizeResult)
    ensures r.cleaned == PreparedDigits(input)
    ensures r.BR? ==> r == TryNormalizeBR(PreparedDigits(input), Resolve(options))
    ensures r.Intl? ==> r.value == r.cleaned
  {
    var opts := Resolve(options);
    if OnlyDigits(input) == [] then Failure(EmptyPhone, "")
    else
      var digits := PreparedDigits(input);
      var brAttempt := TryNormalizeBR(digits, opts);
      if brAttempt.BR? then brAttempt
      else if StartsWith(digits, "55") then brAttempt
      else if |digits| < 10 then Failure(MissingAreaCode, digits)
      else if |digits| > 15 then Failure(TooLong, digits)
      else if StartsWith(digits, "0") then Failure(IntlLeadingZero, digits)
      else Intl(digits, digits)
  }

  /** Input without a single digit, and only such input, fails with "Telefone vazio." and nothing cleaned. */
  lemma EmptyInputRule(input: string, options: PartialOptions)
    ensures NormalizePhone(input, options) == Failure(EmptyPhone, "") <==> OnlyDigits(input) == []
  {
    if OnlyDigits(input) != [] {
      var r := TryNormalizeBR(PreparedDigits(input), Resolve(options));
      assert r.Failure? ==> r.reason != EmptyPhone;
    }
  }

  /** Every BR success is `55` + DDD + subscriber, made only of digits, with a valid DDD and subscriber. */
  lemma BRSuccessShape(input: string, options: PartialOptions)
    requires NormalizePhone(input, options).BR?
    ensures var r := NormalizePhone(input, options);
            WellFormedBR(r, Resolve(options)) && AllDigits(r.value) && AllDigits(r.cleaned)
  {
    var r := NormalizePhone(input, options);
    TryNormalizeBROfValue(r.ddd, r.subscriber, Resolve(options));
  }

  /** Digits that start with the country code are decided by the BR attempt alone: never INTL. */
  lemma CountryCodeNeverIntl(input: string, options: PartialOptions)
    requires StartsWith(PreparedDigits(input), "55")
    ensures NormalizePhone(input, options) == TryNormalizeBR(PreparedDigits(input), Resolve(options))
    ensures !NormalizePhone(input, options).Intl?
  {
  }

  /** An INTL success happens exactly when BR parsing failed, there is no `55`, 10 to 15 digits and no leading `0`. */
  lemma IntlRule(input: string, options: PartialOptions)
    ensures var d := PreparedDigits(input);
      NormalizePhone(input, options).Intl? <==>
        && !TryNormalizeBR(d, Resolve(options)).BR?
        && !StartsWith(d, "55")
        && 10 <= |d| <= 15
        && d[0] != '0'
  {
    var d := PreparedDigits(input);
    if OnlyDigits(input) != [] && |d| >= 1 {
      assert StartsWith(d, "0") <==> d[0] == '0';
    }
  }

  /** Outside the BR path, lengths below 10 and above 15 are refused with their own reasons. */
  lemma IntlLengthBounds(input: string, options: PartialOptions)
    requires OnlyDigits(input) != []
    requires !TryNormalizeBR(PreparedDigits(input), Resolve(options)).BR?
    requires !StartsWith(PreparedDigits(input), "55")
    ensures |PreparedDigits(input)| < 10 ==>
      NormalizePhone(input, options) == Failure(MissingAreaCode, PreparedDigits(input))
    ensures |PreparedDigits(input)| > 15 ==>
      NormalizePhone(input, options) == Failure(TooLong, PreparedDigits(input))
  {
  }

  /** The `value` of a BR success is a fixed point of normalisation under the same options. */
  lemma {:induction false} BRValueIsFixedPoint(input: string, options: PartialOptions)
    requires NormalizePhone(input, options).BR?
    ensures var r := NormalizePhone(input, options);
            NormalizePhone(r.value, options) == BR(r.value, r.ddd, r.subscriber, r.value)
  {
    var r := NormalizePhone(input, options);
    var opts := Resolve(options);
    TryNormalizeBROfValue(r.ddd, r.subscriber, opts);
    assert r.value[0] == '5';
    PreparedDigitsOfPlainDigits(r.value);
    assert NormalizePhone(r.value, options) == TryNormalizeBR(r.value, opts);
  }

  // ------------------------------------------------------ worked examples

  const NoOptions := PartialOptions(None, None)

  /** Digits that do not start with `0` pass the preparation steps unchanged. */
  lemma PreparedDigitsOfPlainDigits(s: string)
    requires AllDigits(s) && s != [] && s[0] != '0'
    ensures PreparedDigits(s) == s
  {
    OnlyDigitsOfDigits(s);
    assert !StartsWith(s, "00") && !StartsWith(s, "0");
  }

  /** A national part `ddd + local` that does not begin with `55` or `0` is its own national part. */
  lemma NationalNumberPrepared(ddd: string, local: string, opts: Options)
    requires ValidDDD(ddd) && ddd != "55" && AllDigits(local)
    ensures AllDigits(ddd + local)
    ensures PreparedDigits(ddd + local) == ddd + local
    ensures NationalPart(ddd + local, opts) == ddd + local
    ensures (ddd + local)[..2] == ddd && (ddd + local)[2..] == local
  {
    var s := ddd + local;
    assert forall i :: 0 <= i < |s| ==> IsDigit(s[i]) by {
      forall i | 0 <= i < |s| ensures IsDigit(s[i]) {
        if i >= 2 { assert s[i] == local[i - 2]; }
      }
    }
    assert s[..2] == ddd && s[0] == ddd[0];
    PreparedDigitsOfPlainDigits(s);
  }

  /** A valid DDD followed by a nine-digit mobile number is accepted and gets the country code. */
  lemma NationalMobileAccepted(ddd: string, subscriber: string, options: PartialOptions)
    requires ValidDDD(ddd) && ddd != "55" && MobileSubscriber(subscriber)
    ensures NormalizePhone(ddd + subscriber, options)
         == BR("55" + ddd + subscriber, ddd, subscriber, ddd + subscriber)
  {
    NationalNumberPrepared(ddd, subscriber, Resolve(options));
  }

  /** An old eight-digit mobile number (first digit 6 to 9) is promoted by a leading `9`. */
  lemma LegacyMobilePromoted(ddd: string, local: string, options: PartialOptions)
    requires ValidDDD(ddd) && ddd != "55"
    requires |local| == 8 && AllDigits(local) && '6' <= local[0] <= '9'
    ensures NormalizePhone(ddd + local, options)
         == BR("55" + ddd + "9" + local, ddd, "9" + local, ddd + local)
  {
    NationalNumberPrepared(ddd, local, Resolve(options));
    assert "55" + ddd + ("9" + local) == "55" + ddd + "9" + local;
  }

  /**
   * In mobile-only mode the BR parse refuses an eight-digit fixed-line number
   * (first digit 2 to 5); as the digits do not start with `55`, the call then
   * accepts them as an international number.
   */
  lemma FixedLineFallsBackToIntl(ddd: string, local: string, options: PartialOptions)
    requires ValidDDD(ddd) && ddd != "55" && FixedLineSubscriber(local)
    requires Resolve(options).brMobileOnly
    ensures TryNormalizeBR(ddd + local, Resolve(options)) == Failure(MobileOnlyRejected, ddd + local)
    ensures NormalizePhone(ddd + local, options) == Intl(ddd + local, ddd + local)
  {
    NationalNumberPrepared(ddd, local, Resolve(options));
  }

  /** With `brMobileOnly` off, the same fixed-line number is accepted unchanged. */
  lemma FixedLineAcceptedWhenNotMobileOnly(ddd: string, local: string, options: PartialOptions)
    requires ValidDDD(ddd) && ddd != "55" && FixedLineSubscriber(local)
    requires !Resolve(options).brMobileOnly
    ensures NormalizePhone(ddd + local, options) == BR("55" + ddd + local, ddd, local, ddd + local)
  {
    NationalNumberPrepared(ddd, local, Resolve(options));
  }

  // ------------------------------------------------ area code 55 without country code

  /**
   * As written, a ten- or eleven-digit national number whose DDD is 55 loses
   * that DDD to the country-code strip and is refused, although 55 passes
   * the DDD check.
   */
  lemma AreaCode55NationalRefused(subscriber: string, options: PartialOptions)
    requires MobileSubscriber(subscriber)
    ensures NormalizePhone("55" + subscriber, options) == Failure(NotBrazilian, "55" + subscriber)
  {
    var s := "55" + subscriber;
    assert ValidDDD("55");
    NationalNumberDigits("55", subscriber);
    PreparedDigitsOfPlainDigits(s);
    assert StripCountryCode(s) == subscriber;
  }

  /** `ddd + local` is a digit string when both parts are. */
  lemma NationalNumberDigits(ddd: string, local: string)
    requires ValidDDD(ddd) && AllDigits(local)
    ensures AllDigits(ddd + local) && (ddd + local)[0] == ddd[0] && (ddd + local)[..2] == ddd
  {
    var s := ddd + local;
    forall i | 0 <= i < |s| ensures IsDigit(s[i]) {
      if i >= 2 { assert s[i] == local[i - 2]; }
    }
  }

  /**
   * The evident intent: ten or eleven digits starting with `55` are a
   * national number with DDD 55, so the country code is added before the BR
   * parse; every other input is normalised as before.
   */
  function NormalizePhoneCorrected(input: string, options: PartialOptions): (r: NormalizeResult)
    ensures r != NormalizePhone(input, options) ==>
      NormalizePhone(input, options) == Failure(NotBrazilian, PreparedDigits(input)) && r.BR?
  {
    var digits := PreparedDigits(input);
    if StartsWith(digits, "55") && (|digits| == 10 || |digits| == 11) then
      assert AllDigits("55" + digits) by {
        forall i | 0 <= i < |"55" + digits| ensures IsDigit(("55" + digits)[i]) {
          if i >= 2 { assert ("55" + digits)[i] == digits[i - 2]; }
        }
      }
      var br := TryNormalizeBR("55" + digits, Resolve(options));
      if br.BR? then
        assert StripCountryCode(digits) == digits[2..];
        BR(br.value, br.ddd, br.subscriber, digits)
      else NormalizePhone(input, options)
    else NormalizePhone(input, options)
  }

  /** Corrected: every valid DDD, 55 included, followed by a nine-digit mobile number is accepted. */
  lemma CorrectedAcceptsEveryAreaCode(ddd: string, subscriber: string, options: PartialOptions)
    requires ValidDDD(ddd) && MobileSubscriber(subscriber)
    ensures NormalizePhoneCorrected(ddd + subscriber, options)
         == BR("55" + ddd + subscriber, ddd, subscriber, ddd + subscriber)
  {
    var s := ddd + subscriber;
    NationalNumberDigits(ddd, subscriber);
    PreparedDigitsOfPlainDigits(s);
    if ddd == "55" {
      assert "55" + s == "55" + ddd + subscriber;
      TryNormalizeBROfValue(ddd, subscriber, Resolve(options));
    } else {
      NationalMobileAccepted(ddd, subscriber, options);
    }
  }
}
