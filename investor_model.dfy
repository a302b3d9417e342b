/** `investorSchema` (`api/models/investor.js`): what a saved investor document
    holds, how a request body becomes one, and which documents the schema's
    validators accept. */
module InvestorModel {
  import opened Js
  import opened Text
  import opened Email
  import opened Schema
  import Validation

  const InvestmentTypes: seq<string> := ["Angel", "Seed", "Series A", "Series B", "Growth", "Any"]
  const DefaultInvestmentType: string := "Any"
  const RiskTolerances: seq<string> := ["Low", "Medium", "High"]
  const DefaultRiskTolerance: string := "Medium"
  const MinCapacity: real := 10000.0
  const MaxCapacity: real := 10000000000.0

  /** An investor document; `None` and `Unset` are paths with no value. */
  datatype Investor = Investor(
    name: Option<string>,
    email: Option<string>,
    phone: Option<string>,
    investmentCapacity: NumberSlot,
    sectorInterest: Option<string>,
    investmentType: Option<string>,
    riskTolerance: Option<string>)

  /** `new Investor(body)` before defaults: each schema path is cast and its
      setter runs (`name` and `sectorInterest` are trimmed, `email` lowercased);
      keys outside the schema are dropped. */
  function FromBody(rt: Runtime, b: Body): (d: Investor)
    ensures d.name.Some? <==> "name" in b
    ensures d.email.Some? <==> "email" in b
    ensures d.phone.Some? <==> "phone" in b
    ensures d.investmentCapacity.Unset? <==> "investmentCapacity" !in b || b["investmentCapacity"] == Str("")
    ensures d.sectorInterest.Some? <==> "sectorInterest" in b
    ensures d.investmentType.Some? <==> "investmentType" in b
    ensures d.riskTolerance.Some? <==> "riskTolerance" in b
    ensures d.name.Some? ==> Trimmed(d.name.value)
    ensures d.sectorInterest.Some? ==> Trimmed(d.sectorInterest.value)
    ensures d.email.Some? ==> forall i :: 0 <= i < |d.email.value| ==> !('A' <= d.email.value[i] <= 'Z')
  {
    Investor(
      StringPath(rt, b, "name", Trim),
      StringPath(rt, b, "email", Lower),
      StringPath(rt, b, "phone", Unchanged),
      NumberPath(rt, b, "investmentCapacity"),
      StringPath(rt, b, "sectorInterest", Trim),
      StringPath(rt, b, "investmentType", Unchanged),
      StringPath(rt, b, "riskTolerance", Unchanged))
  }

  /** Defaults are applied to absent paths: `investmentType` becomes "Any" and
      `riskTolerance` "Medium". */
  function WithDefaults(d: Investor): (r: Investor)
    ensures r.investmentType.Some? && r.riskTolerance.Some?
    ensures d.investmentType.None? ==> r.investmentType == Some(DefaultInvestmentType)
    ensures d.investmentType.Some? ==> r.investmentType == d.investmentType
    ensures d.riskTolerance.None? ==> r.riskTolerance == Some(DefaultRiskTolerance)
    ensures d.riskTolerance.Some? ==> r.riskTolerance == d.riskTolerance
    ensures r.(investmentType := d.investmentType, riskTolerance := d.riskTolerance) == d
  {
    d.(investmentType := if d.investmentType.None? then Some(DefaultInvestmentType) else d.investmentType,
       riskTolerance := if d.riskTolerance.None? then Some(DefaultRiskTolerance) else d.riskTolerance)
  }

  /** The error each path reports, if any; `name`, `email` and `phone` use the
      shared checks in `Schema`. */
  function CapacityError(rt: Runtime, d: Investor): (r: Option<FieldError>)
    ensures r.None? <==> d.investmentCapacity.Cast? && Within(d.investmentCapacity.n, MinCapacity, MaxCapacity)
  {
    WithinIff(if d.investmentCapacity.Cast? then d.investmentCapacity.n else NaN, MinCapacity, MaxCapacity);
    AmountCheck(rt, "investmentCapacity", d.investmentCapacity, "Investment capacity is required",
                MinCapacity, "Minimum investment capacity is \U{20B9}10,000",
                MaxCapacity, "Maximum investment capacity is \U{20B9}1000 crores")
  }

  function SectorError(d: Investor): (r: Option<FieldError>)
    ensures r.None? <==> d.sectorInterest.Some? && d.sectorInterest.value != ""
  {
    RequiredCheck("sectorInterest", d.sectorInterest, "Sector interest is required")
  }

  function InvestmentTypeError(d: Investor): (r: Option<FieldError>)
    ensures r.None? <==> d.investmentType.None? || d.investmentType.value in InvestmentTypes
  {
    EnumCheck("investmentType", d.investmentType, InvestmentTypes)
  }

  function RiskError(d: Investor): (r: Option<FieldError>)
    ensures r.None? <==> d.riskTolerance.None? || d.riskTolerance.value in RiskTolerances
  {
    EnumCheck("riskTolerance", d.riskTolerance, RiskTolerances)
  }

  /** The errors `save()` reports, one per failing path, in path order. */
  function Errors(rt: Runtime, d: Investor): (r: seq<FieldError>)
    ensures r == [] <==> NamePathError(d.name).None? && EmailPathError(d.email).None? && PhonePathError(d.phone).None?
                         && CapacityError(rt, d).None? && SectorError(d).None?
                         && InvestmentTypeError(d).None? && RiskError(d).None?
  {
    Listed(NamePathError(d.name)) + Listed(EmailPathError(d.email)) + Listed(PhonePathError(d.phone))
    + Listed(CapacityError(rt, d)) + Listed(SectorError(d))
    + Listed(InvestmentTypeError(d)) + Listed(RiskError(d))
  }

  /** The schema's constraints, stated path by path. */
  predicate Valid(d: Investor)
  {
    && d.name.Some? && d.name.value != "" && |d.name.value| <= 100
    && d.email.Some? && IsValidEmail(d.email.value)
    && d.phone.Some? && TenDigits(d.phone.value)
    && d.investmentCapacity.Cast? && Within(d.investmentCapacity.n, MinCapacity, MaxCapacity)
    && d.sectorInterest.Some? && d.sectorInterest.value != ""
    && (d.investmentType.None? || d.investmentType.value in InvestmentTypes)
    && (d.riskTolerance.None? || d.riskTolerance.value in RiskTolerances)
  }

  /** `save()` reports no error exactly when the document meets every constraint. */
  lemma ErrorsIffValid(rt: Runtime, d: Investor)
    ensures Errors(rt, d) == [] <==> Valid(d)
  {
  }

  /** A stored investor always has an investment type and a risk tolerance from
      their enums; without them they are "Any" and "Medium". */
  lemma DefaultedEnums(d: Investor)
    requires Valid(WithDefaults(d))
    ensures WithDefaults(d).investmentType.value in InvestmentTypes
    ensures WithDefaults(d).riskTolerance.value in RiskTolerances
    ensures d.investmentType.None? ==> WithDefaults(d).investmentType.value == "Any"
    ensures d.riskTolerance.None? ==> WithDefaults(d).riskTolerance.value == "Medium"
  {
  }

  /** The document depends only on the schema's paths: keys that are neither a
      declared nor an implicit path are dropped. */
  lemma FromBodyIgnores(rt: Runtime, b: Body, k: string, x: Value)
    requires k != "name" && k != "email" && k != "phone" && k != "investmentCapacity"
             && k != "sectorInterest" && k != "investmentType" && k != "riskTolerance"
    requires k !in ImplicitPaths
    ensures FromBody(rt, b[k := x]) == FromBody(rt, b)
  {
  }

  /** The document `save()` sees for a body `validateInvestor` accepted. */
  function AcceptedDocument(rt: Runtime, b: Body): Investor
    requires !Validation.InvestorThrows(b) && Validation.InvestorErrors(rt, b) == []
  {
    WithDefaults(FromBody(rt, Validation.CleanInvestor(rt, b)))
  }

  /** The paths `validateInvestor` checked hold what it checked, after the
      schema's setters and cast: a trimmed non-empty name and sector interest, a
      valid lowercased email, the ten cleaned phone digits, and the parsed
      capacity within bounds. */
  lemma AcceptedPaths(rt: Runtime, b: Body)
    requires !Validation.InvestorThrows(b) && Validation.InvestorErrors(rt, b) == []
    ensures var d := AcceptedDocument(rt, b);
            && d.name == Some(Trim(b["name"].text)) && d.name.value != ""
            && d.email == Some(Lower(b["email"].text)) && IsValidEmail(d.email.value)
            && d.phone == Some(Validation.CleanPhone(rt, b)) && TenDigits(d.phone.value)
            && d.investmentCapacity == Cast(ParseFloat(rt, b["investmentCapacity"]))
            && Within(d.investmentCapacity.n, MinCapacity, MaxCapacity)
            && d.sectorInterest == Some(Trim(b["sectorInterest"].text)) && d.sectorInterest.value != ""
  {
    var c := Validation.CleanInvestor(rt, b);
    assert c["name"] == b["name"] && c["email"] == b["email"] && c["sectorInterest"] == b["sectorInterest"];
    LowerKeepsValid(b["email"].text);
    CleanPhoneIff(ToText(rt, b["phone"]));
  }

  /** With every required path present and well formed, only a length or an
      enum constraint can fail. */
  lemma RemainingErrors(rt: Runtime, d: Investor)
    requires d.name.Some? && d.name.value != ""
    requires EmailPathError(d.email).None? && PhonePathError(d.phone).None? && CapacityError(rt, d).None? && SectorError(d).None?
    ensures Errors(rt, d) == Listed(NamePathError(d.name)) + Listed(InvestmentTypeError(d)) + Listed(RiskError(d))
    ensures forall err :: err in Errors(rt, d) ==> err.violation in {LengthExceeded, NotInEnum}
  {
    assert Errors(rt, d) == Listed(NamePathError(d.name)) + Listed(InvestmentTypeError(d)) + Listed(RiskError(d));
  }

  /** What `validateInvestor` accepts and cleans already satisfies the schema's
      phone pattern and capacity bounds, and its required and email constraints:
      the only errors `save()` can still report are a too-long name and an
      unknown investment type or risk tolerance. */
  lemma AcceptedBodyMeetsSchema(rt: Runtime, b: Body)
    requires !Validation.InvestorThrows(b) && Validation.InvestorErrors(rt, b) == []
    ensures var d := AcceptedDocument(rt, b);
            && PhonePathError(d.phone).None? && CapacityError(rt, d).None? && EmailPathError(d.email).None?
            && (forall err :: err in Errors(rt, d) ==> err.violation in {LengthExceeded, NotInEnum})
  {
    var d := AcceptedDocument(rt, b);
    AcceptedPaths(rt, b);
    RemainingErrors(rt, d);
  }
}
