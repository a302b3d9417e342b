/** The request validators of `api/middleware/validation.js`: each one collects
    error messages in a fixed order, answers 400 with all of them when there is
    any, and otherwise cleans some fields of the body in place before handing
    the request on. */
module Validation {
  import opened Js
  import opened Text
  import opened Email

  /** What a validator does with a request. `Crashed` is a TypeError thrown
      inside the middleware (`.trim()` on a number), which Express answers with 500. */
  datatype Verdict = Accepted(body: Body) | Rejected(details: seq<string>) | Crashed

  const NameRequired := "Name is required"
  const EmailRequired := "Email is required"
  const InvalidEmail := "Please enter a valid email"
  const PhoneRequired := "Phone is required"
  const InvalidPhone := "Please enter a valid 10-digit phone number"
  const SectorRequired := "Sector is required"
  const EntrepreneurNameRequired := "Entrepreneur name is required"
  const IdeaTitleRequired := "Idea title is required"
  const DescriptionRequired := "Description is required"
  const FundingRequired := "Funding amount is required"
  const FundingTooLow := "Minimum funding amount is \U{20B9}1,000"
  const FundingTooHigh := "Maximum funding amount is \U{20B9}100 crores"
  const SectorInterestRequired := "Sector interest is required"
  const CapacityRequired := "Investment capacity is required"
  const CapacityTooLow := "Minimum investment capacity is \U{20B9}10,000"
  const CapacityTooHigh := "Maximum investment capacity is \U{20B9}1000 crores"

  const MinFunding: real := 1000.0
  const MaxFunding: real := 1000000000.0
  const MinCapacity: real := 10000.0
  const MaxCapacity: real := 10000000000.0

  // ---------------------------------------------------------------------------
  // One check per field, shared by the three validators.

  /** `b[k]?.trim()` throws: the client sent a number for a field that is trimmed. */
  predicate TrimThrows(b: Body, k: string)
  {
    k in b && b[k].Num?
  }

  /** `!b[k]?.trim()`: the field is absent or blank after trimming. */
  predicate Missing(b: Body, k: string)
  {
    k !in b || (b[k].Str? && Blank(b[k].text))
  }

  /** The check `if (!x?.trim()) errors.push(message)`. */
  function RequiredErrors(b: Body, k: string, message: string): (r: seq<string>)
    ensures r == [] <==> !Missing(b, k)
    ensures r != [] ==> r == [message]
  {
    if Missing(b, k) then [message] else []
  }

  /** The email check: "required" when blank, otherwise the pattern. */
  function EmailErrors(b: Body): (r: seq<string>)
    requires !TrimThrows(b, "email")
    ensures |r| <= 1
    ensures r == [EmailRequired] <==> Missing(b, "email")
    ensures r == [InvalidEmail] <==> !Missing(b, "email") && !IsValidEmail(b["email"].text)
    ensures r == [] <==> !Missing(b, "email") && IsValidEmail(b["email"].text)
  {
    if Missing(b, "email") then [EmailRequired]
    else if !IsValidEmail(b["email"].text) then [InvalidEmail]
    else []
  }

  /** `!phone?.toString().trim()`. */
  predicate PhoneMissing(rt: Runtime, b: Body)
  {
    "phone" !in b || Blank(ToText(rt, b["phone"]))
  }

  /** `phone.toString().replace(/\D/g, '')`. */
  function CleanPhone(rt: Runtime, b: Body): string
    requires "phone" in b
  {
    Digits(ToText(rt, b["phone"]))
  }

  /** The phone check: "required" when blank, otherwise exactly ten digits must remain. */
  function PhoneErrors(rt: Runtime, b: Body): (r: seq<string>)
    ensures |r| <= 1
    ensures r == [PhoneRequired] <==> PhoneMissing(rt, b)
    ensures r == [] <==> "phone" in b && |CleanPhone(rt, b)| == 10
    ensures !PhoneMissing(rt, b) && |CleanPhone(rt, b)| != 10 ==> r == [InvalidPhone]
  {
    if "phone" !in b then [PhoneRequired]
    else
      CleanPhoneIff(ToText(rt, b["phone"]));
      if Blank(ToText(rt, b["phone"])) then [PhoneRequired]
      else if !TenDigits(CleanPhone(rt, b)) then [InvalidPhone]
      else []
  }

  /** The amount check: "required" when falsy, the minimum message when the
      parsed amount is NaN or below `lo`, the maximum message when above `hi`. */
  function AmountErrors(rt: Runtime, b: Body, k: string, lo: real, hi: real,
                        required: string, tooLow: string, tooHigh: string): (r: seq<string>)
    requires lo <= hi
    ensures k !in b || !Truthy(b[k]) ==> r == [required]
    ensures k in b && Truthy(b[k]) ==> (r == [] <==> Within(ParseFloat(rt, b[k]), lo, hi))
    ensures k in b && Truthy(b[k]) && (ParseFloat(rt, b[k]).NaN? || Below(ParseFloat(rt, b[k]), lo))
            ==> r == [tooLow]
    ensures k in b && Truthy(b[k]) && Within(ParseFloat(rt, b[k]), lo, hi) ==> r == []
    ensures k in b && Truthy(b[k]) && Above(ParseFloat(rt, b[k]), hi) ==> r == [tooHigh]
  {
    if k !in b || !Truthy(b[k]) then [required]
    else
      var amount := ParseFloat(rt, b[k]);
      if amount.NaN? || Below(amount, lo) then [tooLow]
      else if Above(amount, hi) then [tooHigh]
      else []
  }

  function FundingErrors(rt: Runtime, b: Body): seq<string>
  {
    AmountErrors(rt, b, "fundingNeeded", MinFunding, MaxFunding,
                 FundingRequired, FundingTooLow, FundingTooHigh)
  }

  function CapacityErrors(rt: Runtime, b: Body): seq<string>
  {
    AmountErrors(rt, b, "investmentCapacity", MinCapacity, MaxCapacity,
                 CapacityRequired, CapacityTooLow, CapacityTooHigh)
  }

  // ---------------------------------------------------------------------------
  // One check of a validator: its message, if any, is appended to those so far.

  method CheckRequired(b: Body, k: string, message: string, errors: seq<string>)
    returns (out: seq<string>)
    ensures out == errors + RequiredErrors(b, k, message)
  {
    out := errors;
    if Missing(b, k) { out := out + [message]; }
  }

  method CheckEmail(b: Body, errors: seq<string>) returns (out: seq<string>)
    requires !TrimThrows(b, "email")
    ensures out == errors + EmailErrors(b)
  {
    out := errors;
    if Missing(b, "email") {
      out := out + [EmailRequired];
    } else if !IsValidEmail(b["email"].text) {
      out := out + [InvalidEmail];
    }
  }

  method CheckPhone(rt: Runtime, b: Body, errors: seq<string>) returns (out: seq<string>)
    ensures out == errors + PhoneErrors(rt, b)
  {
    out := errors;
    if PhoneMissing(rt, b) {
      out := out + [PhoneRequired];
    } else if !TenDigits(Digits(ToText(rt, b["phone"]))) {
      out := out + [InvalidPhone];
    }
  }

  method CheckAmount(rt: Runtime, b: Body, k: string, lo: real, hi: real,
                     required: string, tooLow: string, tooHigh: string, errors: seq<string>)
    returns (out: seq<string>)
    requires lo <= hi
    ensures out == errors + AmountErrors(rt, b, k, lo, hi, required, tooLow, tooHigh)
  {
    out := errors;
    if k !in b || !Truthy(b[k]) {
      out := out + [required];
    } else {
      var amount := ParseFloat(rt, b[k]);
      if amount.NaN? || Below(amount, lo) {
        out := out + [tooLow];
      } else if Above(amount, hi) {
        out := out + [tooHigh];
      }
    }
  }

  // ---------------------------------------------------------------------------
  // validateEntrepreneur

  /** A field that `validateEntrepreneur` trims holds a number. */
  predicate EntrepreneurThrows(b: Body)
  {
    TrimThrows(b, "name") || TrimThrows(b, "email") || TrimThrows(b, "sector")
  }

  /** The messages `validateEntrepreneur` collects, in check order. */
  function EntrepreneurErrors(rt: Runtime, b: Body): seq<string>
    requires !EntrepreneurThrows(b)
  {
    RequiredErrors(b, "name", NameRequired) + EmailErrors(b) + PhoneErrors(rt, b)
    + RequiredErrors(b, "sector", SectorRequired)
  }

  /** The body handed on: only `phone` is rewritten, to its digits. */
  function CleanEntrepreneur(rt: Runtime, b: Body): (r: Body)
    requires "phone" in b
    ensures r.Keys == b.Keys
    ensures forall k :: k in b && k != "phone" ==> r[k] == b[k]
  {
    b["phone" := Str(CleanPhone(rt, b))]
  }

  method ValidateEntrepreneur(rt: Runtime, b: Body) returns (v: Verdict)
    ensures v.Crashed? <==> EntrepreneurThrows(b)
    ensures v.Rejected? ==> v.details == EntrepreneurErrors(rt, b) && v.details != []
    ensures v.Accepted? ==> EntrepreneurErrors(rt, b) == [] && "phone" in b
                            && v.body == CleanEntrepreneur(rt, b)
    ensures !EntrepreneurThrows(b) ==> (v.Accepted? <==> EntrepreneurErrors(rt, b) == [])
    ensures v.Accepted? ==> v.body.Keys == b.Keys && TenDigits(v.body["phone"].text)
                            && forall k :: k in b && k != "phone" ==> v.body[k] == b[k]
  {
    var errors: seq<string> := [];
    if TrimThrows(b, "name") { return Crashed; }
    errors := CheckRequired(b, "name", NameRequired, errors);
    if TrimThrows(b, "email") { return Crashed; }
    errors := CheckEmail(b, errors);
    errors := CheckPhone(rt, b, errors);
    if TrimThrows(b, "sector") { return Crashed; }
    errors := CheckRequired(b, "sector", SectorRequired, errors);
    assert errors == EntrepreneurErrors(rt, b);
    if |errors| > 0 {
      return Rejected(errors);
    }
    CleanPhoneIff(ToText(rt, b["phone"]));
    v := Accepted(CleanEntrepreneur(rt, b));
  }

  // ---------------------------------------------------------------------------
  // validateIdea

  /** A field that `validateIdea` trims holds a number. */
  predicate IdeaThrows(b: Body)
  {
    TrimThrows(b, "entrepreneurName") || TrimThrows(b, "ideaTitle")
    || TrimThrows(b, "description") || TrimThrows(b, "email")
  }

  /** The messages `validateIdea` collects, in check order. */
  function IdeaErrors(rt: Runtime, b: Body): seq<string>
    requires !IdeaThrows(b)
  {
    RequiredErrors(b, "entrepreneurName", EntrepreneurNameRequired)
    + RequiredErrors(b, "ideaTitle", IdeaTitleRequired)
    + RequiredErrors(b, "description", DescriptionRequired)
    + EmailErrors(b) + FundingErrors(rt, b)
  }

  /** The body handed on: only `fundingNeeded` is rewritten, to the parsed number. */
  function CleanIdea(rt: Runtime, b: Body): (r: Body)
    requires "fundingNeeded" in b
    ensures r.Keys == b.Keys
    ensures forall k :: k in b && k != "fundingNeeded" ==> r[k] == b[k]
  {
    b["fundingNeeded" := Num(ParseFloat(rt, b["fundingNeeded"]))]
  }

  method ValidateIdea(rt: Runtime, b: Body) returns (v: Verdict)
    ensures v.Crashed? <==> IdeaThrows(b)
    ensures v.Rejected? ==> v.details == IdeaErrors(rt, b) && v.details != []
    ensures v.Accepted? ==> IdeaErrors(rt, b) == [] && "fundingNeeded" in b
                            && v.body == CleanIdea(rt, b)
    ensures !IdeaThrows(b) ==> (v.Accepted? <==> IdeaErrors(rt, b) == [])
    ensures v.Accepted? ==> v.body.Keys == b.Keys
                            && Within(v.body["fundingNeeded"].number, MinFunding, MaxFunding)
                            && forall k :: k in b && k != "fundingNeeded" ==> v.body[k] == b[k]
  {
    var errors: seq<string> := [];
    if TrimThrows(b, "entrepreneurName") { return Crashed; }
    errors := CheckRequired(b, "entrepreneurName", EntrepreneurNameRequired, errors);
    if TrimThrows(b, "ideaTitle") { return Crashed; }
    errors := CheckRequired(b, "ideaTitle", IdeaTitleRequired, errors);
    if TrimThrows(b, "description") { return Crashed; }
    errors := CheckRequired(b, "description", DescriptionRequired, errors);
    if TrimThrows(b, "email") { return Crashed; }
    errors := CheckEmail(b, errors);
    errors := CheckAmount(rt, b, "fundingNeeded", MinFunding, MaxFunding,
                          FundingRequired, FundingTooLow, FundingTooHigh, errors);
    assert errors == IdeaErrors(rt, b);
    if |errors| > 0 {
      return Rejected(errors);
    }
    v := Accepted(CleanIdea(rt, b));
  }

  // ---------------------------------------------------------------------------
  // validateInvestor

  /** A field that `validateInvestor` trims holds a number. */
  predicate InvestorThrows(b: Body)
  {
    TrimThrows(b, "name") || TrimThrows(b, "email") || TrimThrows(b, "sectorInterest")
  }

  /** The messages `validateInvestor` collects, in check order. */
  function InvestorErrors(rt: Runtime, b: Body): seq<string>
    requires !InvestorThrows(b)
  {
    RequiredErrors(b, "name", NameRequired) + EmailErrors(b) + PhoneErrors(rt, b)
    + RequiredErrors(b, "sectorInterest", SectorInterestRequired) + CapacityErrors(rt, b)
  }

  /** The body handed on: `phone` becomes its digits and `investmentCapacity`
      the parsed number. */
  function CleanInvestor(rt: Runtime, b: Body): (r: Body)
    requires "phone" in b && "investmentCapacity" in b
    ensures r.Keys == b.Keys
    ensures forall k :: k in b && k != "phone" && k != "investmentCapacity" ==> r[k] == b[k]
  {
    b["phone" := Str(CleanPhone(rt, b))]
     ["investmentCapacity" := Num(ParseFloat(rt, b["investmentCapacity"]))]
  }

  method ValidateInvestor(rt: Runtime, b: Body) returns (v: Verdict)
    ensures v.Crashed? <==> InvestorThrows(b)
    ensures v.Rejected? ==> v.details == InvestorErrors(rt, b) && v.details != []
    ensures v.Accepted? ==> InvestorErrors(rt, b) == [] && "phone" in b && "investmentCapacity" in b
                            && v.body == CleanInvestor(rt, b)
    ensures !InvestorThrows(b) ==> (v.Accepted? <==> InvestorErrors(rt, b) == [])
    ensures v.Accepted? ==> v.body.Keys == b.Keys && TenDigits(v.body["phone"].text)
                            && Within(v.body["investmentCapacity"].number, MinCapacity, MaxCapacity)
                            && forall k :: k in b && k != "phone" && k != "investmentCapacity"
                                           ==> v.body[k] == b[k]
  {
    var errors: seq<string> := [];
    if TrimThrows(b, "name") { return Crashed; }
    errors := CheckRequired(b, "name", NameRequired, errors);
    if TrimThrows(b, "email") { return Crashed; }
    errors := CheckEmail(b, errors);
    errors := CheckPhone(rt, b, errors);
    if TrimThrows(b, "sectorInterest") { return Crashed; }
    errors := CheckRequired(b, "sectorInterest", SectorInterestRequired, errors);
    errors := CheckAmount(rt, b, "investmentCapacity", MinCapacity, MaxCapacity,
                          CapacityRequired, CapacityTooLow, CapacityTooHigh, errors);
    assert errors == InvestorErrors(rt, b);
    if |errors| > 0 {
      return Rejected(errors);
    }
    CleanPhoneIff(ToText(rt, b["phone"]));
    v := Accepted(CleanInvestor(rt, b));
  }

  // ---------------------------------------------------------------------------
  // What the collected messages say about the request.

  /** Each message of `validateEntrepreneur` is reported exactly when its check
      fails, and the two email messages never appear together. */
  lemma EntrepreneurMessages(rt: Runtime, b: Body)
    requires !EntrepreneurThrows(b)
    ensures NameRequired in EntrepreneurErrors(rt, b) <==> Missing(b, "name")
    ensures EmailRequired in EntrepreneurErrors(rt, b) <==> Missing(b, "email")
    ensures InvalidEmail in EntrepreneurErrors(rt, b)
            <==> !Missing(b, "email") && !IsValidEmail(b["email"].text)
    ensures !(EmailRequired in EntrepreneurErrors(rt, b) && InvalidEmail in EntrepreneurErrors(rt, b))
    ensures PhoneRequired in EntrepreneurErrors(rt, b) <==> PhoneMissing(rt, b)
    ensures InvalidPhone in EntrepreneurErrors(rt, b)
            <==> !PhoneMissing(rt, b) && |CleanPhone(rt, b)| != 10
    ensures SectorRequired in EntrepreneurErrors(rt, b) <==> Missing(b, "sector")
  {
    var name, email, phone, sector := RequiredErrors(b, "name", NameRequired), EmailErrors(b),
                                      PhoneErrors(rt, b), RequiredErrors(b, "sector", SectorRequired);
    var e := EntrepreneurErrors(rt, b);
    assert e == name + email + phone + sector;
    assert |NameRequired| == 16 && |EmailRequired| == 17 && |InvalidEmail| == 26;
    assert |PhoneRequired| == 17 && |InvalidPhone| == 42 && |SectorRequired| == 18;
    assert EmailRequired[0] != PhoneRequired[0];
    assert name == [] || name == [NameRequired];
    assert email == [] || email == [EmailRequired] || email == [InvalidEmail];
    assert phone == [] || phone == [PhoneRequired] || phone == [InvalidPhone];
    assert sector == [] || sector == [SectorRequired];
    if "phone" in b {
      CleanPhoneIff(ToText(rt, b["phone"]));
    }
  }

  /** Each message of `validateIdea` is reported exactly when its check fails;
      at most one email message and at most one funding message appear. */
  lemma IdeaMessages(rt: Runtime, b: Body)
    requires !IdeaThrows(b)
    ensures EntrepreneurNameRequired in IdeaErrors(rt, b) <==> Missing(b, "entrepreneurName")
    ensures IdeaTitleRequired in IdeaErrors(rt, b) <==> Missing(b, "ideaTitle")
    ensures DescriptionRequired in IdeaErrors(rt, b) <==> Missing(b, "description")
    ensures EmailRequired in IdeaErrors(rt, b) <==> Missing(b, "email")
    ensures InvalidEmail in IdeaErrors(rt, b)
            <==> !Missing(b, "email") && !IsValidEmail(b["email"].text)
    ensures !(EmailRequired in IdeaErrors(rt, b) && InvalidEmail in IdeaErrors(rt, b))
  {
    var name, title, desc := RequiredErrors(b, "entrepreneurName", EntrepreneurNameRequired),
                             RequiredErrors(b, "ideaTitle", IdeaTitleRequired),
                             RequiredErrors(b, "description", DescriptionRequired);
    var email, funding := EmailErrors(b), FundingErrors(rt, b);
    assert IdeaErrors(rt, b) == name + title + desc + email + funding;
    assert name == [] || name == [EntrepreneurNameRequired];
    assert title == [] || title == [IdeaTitleRequired];
    assert desc == [] || desc == [DescriptionRequired];
    assert email == [] || email == [EmailRequired] || email == [InvalidEmail];
    assert funding == [] || funding == [FundingRequired] || funding == [FundingTooLow]
           || funding == [FundingTooHigh];
  }

  /** The funding messages of `validateIdea`: "required" for a falsy amount, the
      minimum for NaN or less than 1000, the maximum for more than 1e9. */
  lemma IdeaFundingMessages(rt: Runtime, b: Body)
    requires !IdeaThrows(b)
    ensures FundingRequired in IdeaErrors(rt, b)
            <==> "fundingNeeded" !in b || !Truthy(b["fundingNeeded"])
    ensures FundingTooLow in IdeaErrors(rt, b)
            <==> "fundingNeeded" in b && Truthy(b["fundingNeeded"])
                 && (ParseFloat(rt, b["fundingNeeded"]).NaN? || Below(ParseFloat(rt, b["fundingNeeded"]), MinFunding))
    ensures FundingTooHigh in IdeaErrors(rt, b)
            <==> "fundingNeeded" in b && Truthy(b["fundingNeeded"])
                 && Above(ParseFloat(rt, b["fundingNeeded"]), MaxFunding)
  {
    var name, title, desc := RequiredErrors(b, "entrepreneurName", EntrepreneurNameRequired),
                             RequiredErrors(b, "ideaTitle", IdeaTitleRequired),
                             RequiredErrors(b, "description", DescriptionRequired);
    var email, funding := EmailErrors(b), FundingErrors(rt, b);
    assert IdeaErrors(rt, b) == name + title + desc + email + funding;
    assert name == [] || name == [EntrepreneurNameRequired];
    assert title == [] || title == [IdeaTitleRequired];
    assert desc == [] || desc == [DescriptionRequired];
    assert email == [] || email == [EmailRequired] || email == [InvalidEmail];
    assert funding == [] || funding == [FundingRequired] || funding == [FundingTooLow]
           || funding == [FundingTooHigh];
  }

  /** The name and email messages of `validateInvestor` are reported exactly
      when their checks fail, and the two email messages never appear together. */
  lemma InvestorMessages(rt: Runtime, b: Body)
    requires !InvestorThrows(b)
    ensures NameRequired in InvestorErrors(rt, b) <==> Missing(b, "name")
    ensures EmailRequired in InvestorErrors(rt, b) <==> Missing(b, "email")
    ensures InvalidEmail in InvestorErrors(rt, b)
            <==> !Missing(b, "email") && !IsValidEmail(b["email"].text)
    ensures !(EmailRequired in InvestorErrors(rt, b) && InvalidEmail in InvestorErrors(rt, b))
  {
    var name, email, phone := RequiredErrors(b, "name", NameRequired), EmailErrors(b), PhoneErrors(rt, b);
    var sector, capacity := RequiredErrors(b, "sectorInterest", SectorInterestRequired), CapacityErrors(rt, b);
    assert InvestorErrors(rt, b) == name + email + phone + sector + capacity;
    assert name == [] || name == [NameRequired];
    assert email == [] || email == [EmailRequired] || email == [InvalidEmail];
    assert phone == [] || phone == [PhoneRequired] || phone == [InvalidPhone];
    assert sector == [] || sector == [SectorInterestRequired];
    assert capacity == [] || capacity == [CapacityRequired] || capacity == [CapacityTooLow]
           || capacity == [CapacityTooHigh];
  }

  /** The phone and sector messages of `validateInvestor` are reported exactly
      when their checks fail. */
  lemma InvestorContactMessages(rt: Runtime, b: Body)
    requires !InvestorThrows(b)
    ensures PhoneRequired in InvestorErrors(rt, b) <==> PhoneMissing(rt, b)
    ensures InvalidPhone in InvestorErrors(rt, b)
            <==> !PhoneMissing(rt, b) && |CleanPhone(rt, b)| != 10
    ensures SectorInterestRequired in InvestorErrors(rt, b) <==> Missing(b, "sectorInterest")
  {
    var name, email, phone := RequiredErrors(b, "name", NameRequired), EmailErrors(b), PhoneErrors(rt, b);
    var sector, capacity := RequiredErrors(b, "sectorInterest", SectorInterestRequired), CapacityErrors(rt, b);
    assert InvestorErrors(rt, b) == name + email + phone + sector + capacity;
    assert name == [] || name == [NameRequired];
    assert email == [] || email == [EmailRequired] || email == [InvalidEmail];
    assert phone == [] || phone == [PhoneRequired] || phone == [InvalidPhone];
    assert sector == [] || sector == [SectorInterestRequired];
    assert capacity == [] || capacity == [CapacityRequired] || capacity == [CapacityTooLow]
           || capacity == [CapacityTooHigh];
    if "phone" in b {
      CleanPhoneIff(ToText(rt, b["phone"]));
    }
  }

  /** The capacity messages of `validateInvestor`: "required" for a falsy amount,
      the minimum for NaN or less than 10000, the maximum for more than 1e10. */
  lemma InvestorCapacityMessages(rt: Runtime, b: Body)
    requires !InvestorThrows(b)
    ensures CapacityRequired in InvestorErrors(rt, b)
            <==> "investmentCapacity" !in b || !Truthy(b["investmentCapacity"])
    ensures CapacityTooLow in InvestorErrors(rt, b)
            <==> "investmentCapacity" in b && Truthy(b["investmentCapacity"])
                 && (ParseFloat(rt, b["investmentCapacity"]).NaN?
                     || Below(ParseFloat(rt, b["investmentCapacity"]), MinCapacity))
    ensures CapacityTooHigh in InvestorErrors(rt, b)
            <==> "investmentCapacity" in b && Truthy(b["investmentCapacity"])
                 && Above(ParseFloat(rt, b["investmentCapacity"]), MaxCapacity)
  {
    var name, email, phone := RequiredErrors(b, "name", NameRequired), EmailErrors(b), PhoneErrors(rt, b);
    var sector, capacity := RequiredErrors(b, "sectorInterest", SectorInterestRequired), CapacityErrors(rt, b);
    assert InvestorErrors(rt, b) == name + email + phone + sector + capacity;
    assert name == [] || name == [NameRequired];
    assert email == [] || email == [EmailRequired] || email == [InvalidEmail];
    assert phone == [] || phone == [PhoneRequired] || phone == [InvalidPhone];
    assert sector == [] || sector == [SectorInterestRequired];
    assert capacity == [] || capacity == [CapacityRequired] || capacity == [CapacityTooLow]
           || capacity == [CapacityTooHigh];
    if "phone" in b {
      CleanPhoneIff(ToText(rt, b["phone"]));
    }
  }

  /** The boundary amounts themselves pass: 1000 and 1e9 for an idea's funding,
      10000 and 1e10 for an investor's capacity. An infinite amount gets the
      maximum message and an unparsable one the minimum message. */
  lemma AmountBoundaries(rt: Runtime, b: Body, k: string, lo: real, hi: real,
                         required: string, tooLow: string, tooHigh: string)
    requires lo <= hi && k in b && Truthy(b[k])
    ensures ParseFloat(rt, b[k]) == Finite(lo) ==> AmountErrors(rt, b, k, lo, hi, required, tooLow, tooHigh) == []
    ensures ParseFloat(rt, b[k]) == Finite(hi) ==> AmountErrors(rt, b, k, lo, hi, required, tooLow, tooHigh) == []
    ensures ParseFloat(rt, b[k]) == PosInfinity ==> AmountErrors(rt, b, k, lo, hi, required, tooLow, tooHigh) == [tooHigh]
    ensures ParseFloat(rt, b[k]) == NaN ==> AmountErrors(rt, b, k, lo, hi, required, tooLow, tooHigh) == [tooLow]
  {
  }

  /** Updating a field `validateEntrepreneur` never reads (`startupStage`,
      `description`, or anything else but name, email, phone and sector)
      changes neither the verdict nor the messages. */
  lemma EntrepreneurIgnores(rt: Runtime, b: Body, k: string, x: Value)
    requires k != "name" && k != "email" && k != "phone" && k != "sector"
    ensures EntrepreneurThrows(b[k := x]) <==> EntrepreneurThrows(b)
    ensures !EntrepreneurThrows(b) ==> EntrepreneurErrors(rt, b[k := x]) == EntrepreneurErrors(rt, b)
  {
    var c := b[k := x];
    if !EntrepreneurThrows(b) {
      assert PhoneErrors(rt, c) == PhoneErrors(rt, b);
      assert EmailErrors(c) == EmailErrors(b);
    }
  }

  /** A field `validateEntrepreneur` never reads is handed on as sent. */
  lemma EntrepreneurPassesOn(rt: Runtime, b: Body, k: string, x: Value)
    requires k != "name" && k != "email" && k != "phone" && k != "sector"
    ensures "phone" in b ==> CleanEntrepreneur(rt, b[k := x]) == CleanEntrepreneur(rt, b)[k := x]
  {
  }

  /** Updating a field `validateIdea` never reads changes neither the verdict nor
      the messages. */
  lemma IdeaIgnores(rt: Runtime, b: Body, k: string, x: Value)
    requires k != "entrepreneurName" && k != "ideaTitle" && k != "description"
             && k != "email" && k != "fundingNeeded"
    ensures IdeaThrows(b[k := x]) <==> IdeaThrows(b)
    ensures !IdeaThrows(b) ==> IdeaErrors(rt, b[k := x]) == IdeaErrors(rt, b)
  {
    var c := b[k := x];
    if !IdeaThrows(b) {
      assert FundingErrors(rt, c) == FundingErrors(rt, b);
      assert EmailErrors(c) == EmailErrors(b);
    }
  }

  /** A field `validateIdea` never reads is handed on as sent. */
  lemma IdeaPassesOn(rt: Runtime, b: Body, k: string, x: Value)
    requires k != "entrepreneurName" && k != "ideaTitle" && k != "description"
             && k != "email" && k != "fundingNeeded"
    ensures "fundingNeeded" in b ==> CleanIdea(rt, b[k := x]) == CleanIdea(rt, b)[k := x]
  {
  }

  /** Updating a field `validateInvestor` never reads changes neither the verdict
      nor the messages. */
  lemma InvestorIgnores(rt: Runtime, b: Body, k: string, x: Value)
    requires k != "name" && k != "email" && k != "phone" && k != "sectorInterest"
             && k != "investmentCapacity"
    ensures InvestorThrows(b[k := x]) <==> InvestorThrows(b)
    ensures !InvestorThrows(b) ==> InvestorErrors(rt, b[k := x]) == InvestorErrors(rt, b)
  {
    var c := b[k := x];
    if !InvestorThrows(b) {
      assert PhoneErrors(rt, c) == PhoneErrors(rt, b);
      assert CapacityErrors(rt, c) == CapacityErrors(rt, b);
      assert EmailErrors(c) == EmailErrors(b);
    }
  }

  /** A field `validateInvestor` never reads is handed on as sent. */
  lemma InvestorPassesOn(rt: Runtime, b: Body, k: string, x: Value)
    requires k != "name" && k != "email" && k != "phone" && k != "sectorInterest"
             && k != "investmentCapacity"
    ensures "phone" in b && "investmentCapacity" in b
            ==> CleanInvestor(rt, b[k := x]) == CleanInvestor(rt, b)[k := x]
  {
  }

  /** An email `validateEntrepreneur`, `validateIdea` or `validateInvestor`
      accepts has exactly one `@`, and its domain ends in a dot and two or
      three word characters. */
  lemma AcceptedEmail(s: string)
    requires IsValidEmail(s)
    ensures exists k :: 0 <= k < |s| && s[k] == '@' && forall m :: 0 <= m < |s| && m != k ==> s[m] != '@'
    ensures EndsWithTld(s)
  {
    OneAt(s);
    var i :| SplitAt(s, i) && forall m :: 0 <= m < |s| && m != i ==> s[m] != '@';
    var d := s[i + 1..];
    assert |d| >= 3;
    assert s[|s| - 1] == d[|d| - 1] && s[|s| - 2] == d[|d| - 2] && s[|s| - 3] == d[|d| - 3];
    if |d| >= 4 { assert s[|s| - 4] == d[|d| - 4]; }
  }
}
