/** `entrepreneurSchema` (`api/models/Entrepreneur.js`): what a saved
    entrepreneur document holds, how a request body becomes one, and which
    documents the schema's validators accept. */
module EntrepreneurModel {
  import opened Js
  import opened Text
  import opened Email
  import opened Schema
  import Validation

  const StartupStages: seq<string> :=
    ["Idea Stage", "Prototype", "MVP", "Early Stage", "Growth Stage", "Expansion"]
  const DefaultStage: string := "Idea Stage"

  /** An entrepreneur document; `None` is a path with no value. */
  datatype Entrepreneur = Entrepreneur(
    name: Option<string>,
    email: Option<string>,
    phone: Option<string>,
    startupStage: Option<string>,
    sector: Option<string>,
    description: Option<string>)

  /** `new Entrepreneur(body)` before defaults: each schema path is cast to a
      string and its setter runs (`name` and `sector` are trimmed, `email`
      lowercased); keys outside the schema are dropped. */
  function FromBody(rt: Runtime, b: Body): (e: Entrepreneur)
    ensures e.name.Some? <==> "name" in b
    ensures e.email.Some? <==> "email" in b
    ensures e.phone.Some? <==> "phone" in b
    ensures e.startupStage.Some? <==> "startupStage" in b
    ensures e.sector.Some? <==> "sector" in b
    ensures e.description.Some? <==> "description" in b
    ensures e.name.Some? ==> Trimmed(e.name.value)
    ensures e.sector.Some? ==> Trimmed(e.sector.value)
    ensures e.email.Some? ==> forall i :: 0 <= i < |e.email.value| ==> !('A' <= e.email.value[i] <= 'Z')
  {
    Entrepreneur(
      StringPath(rt, b, "name", Trim),
      StringPath(rt, b, "email", Lower),
      StringPath(rt, b, "phone", Unchanged),
      StringPath(rt, b, "startupStage", Unchanged),
      StringPath(rt, b, "sector", Trim),
      StringPath(rt, b, "description", Unchanged))
  }

  /** Defaults are applied to absent paths: `startupStage` becomes "Idea Stage". */
  function WithDefaults(e: Entrepreneur): (r: Entrepreneur)
    ensures r.startupStage.Some?
    ensures e.startupStage.None? ==> r.startupStage == Some(DefaultStage)
    ensures e.startupStage.Some? ==> r == e
    ensures r.(startupStage := e.startupStage) == e
  {
    if e.startupStage.None? then e.(startupStage := Some(DefaultStage)) else e
  }

  /** The error each path reports, if any; `name`, `email` and `phone` use the
      shared checks in `Schema`. */
  function StageError(e: Entrepreneur): (r: Option<FieldError>)
    ensures r.None? <==> e.startupStage.None? || e.startupStage.value in StartupStages
  {
    EnumCheck("startupStage", e.startupStage, StartupStages)
  }

  function SectorError(e: Entrepreneur): (r: Option<FieldError>)
    ensures r.None? <==> e.sector.Some? && e.sector.value != ""
  {
    RequiredCheck("sector", e.sector, "Sector is required")
  }

  function DescriptionError(e: Entrepreneur): (r: Option<FieldError>)
    ensures r.None? <==> e.description.None? || |e.description.value| <= 1000
  {
    MaxLengthCheck("description", e.description, 1000, "Description cannot exceed 1000 characters")
  }

  /** The errors `save()` reports, one per failing path, in path order. */
  function Errors(e: Entrepreneur): (r: seq<FieldError>)
    ensures r == [] <==> NamePathError(e.name).None? && EmailPathError(e.email).None? && PhonePathError(e.phone).None?
                         && StageError(e).None? && SectorError(e).None? && DescriptionError(e).None?
  {
    Listed(NamePathError(e.name)) + Listed(EmailPathError(e.email)) + Listed(PhonePathError(e.phone))
    + Listed(StageError(e)) + Listed(SectorError(e)) + Listed(DescriptionError(e))
  }

  /** The schema's constraints, stated path by path. */
  predicate Valid(e: Entrepreneur)
  {
    && e.name.Some? && e.name.value != "" && |e.name.value| <= 100
    && e.email.Some? && IsValidEmail(e.email.value)
    && e.phone.Some? && TenDigits(e.phone.value)
    && (e.startupStage.None? || e.startupStage.value in StartupStages)
    && e.sector.Some? && e.sector.value != ""
    && (e.description.None? || |e.description.value| <= 1000)
  }

  /** `save()` reports no error exactly when the document meets every constraint. */
  lemma ErrorsIffValid(e: Entrepreneur)
    ensures Errors(e) == [] <==> Valid(e)
  {
  }

  /** A stored entrepreneur always has a startup stage from the enum. */
  lemma DefaultedStage(e: Entrepreneur)
    requires Valid(WithDefaults(e))
    ensures WithDefaults(e).startupStage.value in StartupStages
    ensures e.startupStage.None? ==> WithDefaults(e).startupStage.value == "Idea Stage"
  {
  }

  /** The document depends only on the schema's paths: keys that are neither a
      declared nor an implicit path are dropped. */
  lemma FromBodyIgnores(rt: Runtime, b: Body, k: string, x: Value)
    requires k != "name" && k != "email" && k != "phone" && k != "startupStage"
             && k != "sector" && k != "description"
    requires k !in ImplicitPaths
    ensures FromBody(rt, b[k := x]) == FromBody(rt, b)
  {
  }

  /** The document `save()` sees for a body `validateEntrepreneur` accepted. */
  function AcceptedDocument(rt: Runtime, b: Body): Entrepreneur
    requires !Validation.EntrepreneurThrows(b) && Validation.EntrepreneurErrors(rt, b) == []
  {
    WithDefaults(FromBody(rt, Validation.CleanEntrepreneur(rt, b)))
  }

  /** The paths `validateEntrepreneur` checked hold what it checked, after the
      schema's setters: a trimmed non-empty name and sector, a valid lowercased
      email, and the ten cleaned phone digits. */
  lemma AcceptedPaths(rt: Runtime, b: Body)
    requires !Validation.EntrepreneurThrows(b) && Validation.EntrepreneurErrors(rt, b) == []
    ensures var e := AcceptedDocument(rt, b);
            && e.name == Some(Trim(b["name"].text)) && e.name.value != ""
            && e.email == Some(Lower(b["email"].text)) && IsValidEmail(e.email.value)
            && e.phone == Some(Validation.CleanPhone(rt, b)) && TenDigits(e.phone.value)
            && e.sector == Some(Trim(b["sector"].text)) && e.sector.value != ""
  {
    var c := Validation.CleanEntrepreneur(rt, b);
    assert c["name"] == b["name"] && c["email"] == b["email"] && c["sector"] == b["sector"];
    LowerKeepsValid(b["email"].text);
    CleanPhoneIff(ToText(rt, b["phone"]));
  }

  /** With name, email, phone and sector present and well formed, only a
      length or an enum constraint can fail. */
  lemma RemainingErrors(e: Entrepreneur)
    requires e.name.Some? && e.name.value != ""
    requires EmailPathError(e.email).None? && PhonePathError(e.phone).None? && SectorError(e).None?
    ensures Errors(e) == Listed(NamePathError(e.name)) + Listed(StageError(e)) + Listed(DescriptionError(e))
    ensures NamePathError(e.name).Some? ==> NamePathError(e.name).value.violation == LengthExceeded
    ensures forall err :: err in Errors(e) ==> err.violation in {LengthExceeded, NotInEnum}
  {
    assert Errors(e) == Listed(NamePathError(e.name)) + Listed(StageError(e)) + Listed(DescriptionError(e));
  }

  /** What `validateEntrepreneur` accepts and cleans already satisfies the
      schema's required, email and phone constraints: the only errors `save()`
      can still report are a too-long name or description and an unknown stage. */
  lemma AcceptedBodyMeetsSchema(rt: Runtime, b: Body)
    requires !Validation.EntrepreneurThrows(b) && Validation.EntrepreneurErrors(rt, b) == []
    ensures var e := AcceptedDocument(rt, b);
            && Errors(e) == Listed(NamePathError(e.name)) + Listed(StageError(e)) + Listed(DescriptionError(e))
            && (NamePathError(e.name).Some? ==> NamePathError(e.name).value.violation == LengthExceeded)
            && (forall err :: err in Errors(e) ==> err.violation in {LengthExceeded, NotInEnum})
  {
    var e := AcceptedDocument(rt, b);
    AcceptedPaths(rt, b);
    RemainingErrors(e);
  }
}
