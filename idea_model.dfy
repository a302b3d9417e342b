/** `ideaSchema` (`api/models/idea.js`): what a saved idea document holds, how a
    request body becomes one, and which documents the schema's validators accept. */
module IdeaModel {
  import opened Js
  import opened Text
  import opened Email
  import opened Schema
  import Validation

  const Statuses: seq<string> := ["Submitted", "Under Review", "Approved", "Rejected"]
  const DefaultStatus: string := "Submitted"
  const MinFunding: real := 1000.0
  const MaxFunding: real := 1000000000.0

  /** An idea document; `None` and `Unset` are paths with no value. */
  datatype Idea = Idea(
    entrepreneurName: Option<string>,
    ideaTitle: Option<string>,
    description: Option<string>,
    fundingNeeded: NumberSlot,
    email: Option<string>,
    status: Option<string>)

  /** `new Idea(body)` before defaults: each schema path is cast and its setter
      runs (`entrepreneurName` and `ideaTitle` are trimmed, `email` lowercased);
      keys outside the schema are dropped. */
  function FromBody(rt: Runtime, b: Body): (d: Idea)
    ensures d.entrepreneurName.Some? <==> "entrepreneurName" in b
    ensures d.ideaTitle.Some? <==> "ideaTitle" in b
    ensures d.description.Some? <==> "description" in b
    ensures d.email.Some? <==> "email" in b
    ensures d.status.Some? <==> "status" in b
    ensures d.fundingNeeded.Unset? <==> "fundingNeeded" !in b || b["fundingNeeded"] == Str("")
    ensures d.entrepreneurName.Some? ==> Trimmed(d.entrepreneurName.value)
    ensures d.ideaTitle.Some? ==> Trimmed(d.ideaTitle.value)
    ensures d.email.Some? ==> forall i :: 0 <= i < |d.email.value| ==> !('A' <= d.email.value[i] <= 'Z')
  {
    Idea(
      StringPath(rt, b, "entrepreneurName", Trim),
      StringPath(rt, b, "ideaTitle", Trim),
      StringPath(rt, b, "description", Unchanged),
      NumberPath(rt, b, "fundingNeeded"),
      StringPath(rt, b, "email", Lower),
      StringPath(rt, b, "status", Unchanged))
  }

  /** Defaults are applied to absent paths: `status` becomes "Submitted". */
  function WithDefaults(d: Idea): (r: Idea)
    ensures r.status.Some?
    ensures d.status.None? ==> r.status == Some(DefaultStatus)
    ensures d.status.Some? ==> r == d
    ensures r.(status := d.status) == d
  {
    if d.status.None? then d.(status := Some(DefaultStatus)) else d
  }

  /** The error each path reports, if any. */
  function NameError(d: Idea): (r: Option<FieldError>)
    ensures r.None? <==> d.entrepreneurName.Some? && d.entrepreneurName.value != ""
                         && |d.entrepreneurName.value| <= 100
  {
    BoundedText("entrepreneurName", d.entrepreneurName, "Entrepreneur name is required", 100, "Name cannot exceed 100 characters")
  }

  function TitleError(d: Idea): (r: Option<FieldError>)
    ensures r.None? <==> d.ideaTitle.Some? && d.ideaTitle.value != "" && |d.ideaTitle.value| <= 200
  {
    BoundedText("ideaTitle", d.ideaTitle, "Idea title is required", 200, "Title cannot exceed 200 characters")
  }

  function DescriptionError(d: Idea): (r: Option<FieldError>)
    ensures r.None? <==> d.description.Some? && d.description.value != ""
                         && |d.description.value| <= 2000
  {
    BoundedText("description", d.description, "Description is required", 2000, "Description cannot exceed 2000 characters")
  }

  function FundingError(rt: Runtime, d: Idea): (r: Option<FieldError>)
    ensures r.None? <==> d.fundingNeeded.Cast? && Within(d.fundingNeeded.n, MinFunding, MaxFunding)
  {
    WithinIff(if d.fundingNeeded.Cast? then d.fundingNeeded.n else NaN, MinFunding, MaxFunding);
    AmountCheck(rt, "fundingNeeded", d.fundingNeeded, "Funding amount is required",
                MinFunding, "Minimum funding amount is \U{20B9}1,000",
                MaxFunding, "Maximum funding amount is \U{20B9}100 crores")
  }

  function StatusError(d: Idea): (r: Option<FieldError>)
    ensures r.None? <==> d.status.None? || d.status.value in Statuses
  {
    EnumCheck("status", d.status, Statuses)
  }

  /** The errors `save()` reports, one per failing path, in path order. */
  function Errors(rt: Runtime, d: Idea): (r: seq<FieldError>)
    ensures r == [] <==> NameError(d).None? && TitleError(d).None? && DescriptionError(d).None?
                         && FundingError(rt, d).None? && EmailPathError(d.email).None? && StatusError(d).None?
  {
    Listed(NameError(d)) + Listed(TitleError(d)) + Listed(DescriptionError(d))
    + Listed(FundingError(rt, d)) + Listed(EmailPathError(d.email)) + Listed(StatusError(d))
  }

  /** The schema's constraints, stated path by path. */
  predicate Valid(d: Idea)
  {
    && d.entrepreneurName.Some? && d.entrepreneurName.value != "" && |d.entrepreneurName.value| <= 100
    && d.ideaTitle.Some? && d.ideaTitle.value != "" && |d.ideaTitle.value| <= 200
    && d.description.Some? && d.description.value != "" && |d.description.value| <= 2000
    && d.fundingNeeded.Cast? && Within(d.fundingNeeded.n, MinFunding, MaxFunding)
    && d.email.Some? && IsValidEmail(d.email.value)
    && (d.status.None? || d.status.value in Statuses)
  }

  /** `save()` reports no error exactly when the document meets every constraint. */
  lemma ErrorsIffValid(rt: Runtime, d: Idea)
    ensures Errors(rt, d) == [] <==> Valid(d)
  {
  }

  /** A stored idea always has a status from the enum; without one it is "Submitted". */
  lemma DefaultedStatus(d: Idea)
    requires Valid(WithDefaults(d))
    ensures WithDefaults(d).status.value in Statuses
    ensures d.status.None? ==> WithDefaults(d).status.value == "Submitted"
  {
  }

  /** The document depends only on the schema's paths: keys that are neither a
      declared nor an implicit path are dropped. */
  lemma FromBodyIgnores(rt: Runtime, b: Body, k: string, x: Value)
    requires k != "entrepreneurName" && k != "ideaTitle" && k != "description"
             && k != "fundingNeeded" && k != "email" && k != "status"
    requires k !in ImplicitPaths
    ensures FromBody(rt, b[k := x]) == FromBody(rt, b)
  {
  }

  /** The document `save()` sees for a body `validateIdea` accepted. */
  function AcceptedDocument(rt: Runtime, b: Body): Idea
    requires !Validation.IdeaThrows(b) && Validation.IdeaErrors(rt, b) == []
  {
    WithDefaults(FromBody(rt, Validation.CleanIdea(rt, b)))
  }

  /** The paths `validateIdea` checked hold what it checked, after the schema's
      setters and cast: a trimmed non-empty name and title, a non-empty
      description, the parsed funding within bounds, and a valid lowercased email. */
  lemma AcceptedPaths(rt: Runtime, b: Body)
    requires !Validation.IdeaThrows(b) && Validation.IdeaErrors(rt, b) == []
    ensures var d := AcceptedDocument(rt, b);
            && d.entrepreneurName == Some(Trim(b["entrepreneurName"].text)) && d.entrepreneurName.value != ""
            && d.ideaTitle == Some(Trim(b["ideaTitle"].text)) && d.ideaTitle.value != ""
            && d.description == Some(b["description"].text) && d.description.value != ""
            && d.fundingNeeded == Cast(ParseFloat(rt, b["fundingNeeded"]))
            && Within(d.fundingNeeded.n, MinFunding, MaxFunding)
            && d.email == Some(Lower(b["email"].text)) && IsValidEmail(d.email.value)
  {
    var c := Validation.CleanIdea(rt, b);
    assert c["entrepreneurName"] == b["entrepreneurName"] && c["ideaTitle"] == b["ideaTitle"];
    assert c["description"] == b["description"] && c["email"] == b["email"];
    LowerKeepsValid(b["email"].text);
    assert b["description"].text != "" by {
      assert !Blank(b["description"].text);
    }
  }

  /** With the required paths present and well formed, only a length or an
      enum constraint can fail. */
  lemma RemainingErrors(rt: Runtime, d: Idea)
    requires d.entrepreneurName.Some? && d.entrepreneurName.value != ""
    requires d.ideaTitle.Some? && d.ideaTitle.value != ""
    requires d.description.Some? && d.description.value != ""
    requires FundingError(rt, d).None? && EmailPathError(d.email).None?
    ensures Errors(rt, d) == Listed(NameError(d)) + Listed(TitleError(d)) + Listed(DescriptionError(d))
                             + Listed(StatusError(d))
    ensures forall err :: err in Errors(rt, d) ==> err.violation in {LengthExceeded, NotInEnum}
  {
    assert Errors(rt, d) == Listed(NameError(d)) + Listed(TitleError(d)) + Listed(DescriptionError(d))
                            + Listed(StatusError(d));
  }

  /** What `validateIdea` accepts and cleans already satisfies the schema's
      required, funding and email constraints: the only errors `save()` can
      still report are a too-long name, title or description and an unknown status. */
  lemma AcceptedBodyMeetsSchema(rt: Runtime, b: Body)
    requires !Validation.IdeaThrows(b) && Validation.IdeaErrors(rt, b) == []
    ensures var d := AcceptedDocument(rt, b);
            && FundingError(rt, d).None? && EmailPathError(d.email).None?
            && (forall err :: err in Errors(rt, d) ==> err.violation in {LengthExceeded, NotInEnum})
  {
    var d := AcceptedDocument(rt, b);
    AcceptedPaths(rt, b);
    RemainingErrors(rt, d);
  }
}
