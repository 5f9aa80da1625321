/** The new-analysis form (views/NewAnalysis.tsx): the editable list of competitor URLs,
    the submit guard and blank filter, and the choice between the form and the loading
    panel. */
module NewAnalysis {
  import opened Wrappers
  import opened Text
  import opened Seqs
  import opened Types

  /** The most competitor rows the form offers. */
  const MaxCompetitors: nat := 4

  const InitialCompetitors: seq<string> := ["https://adyen.com", "https://paypal.com"]

  /** `addCompetitor`: a blank row is appended while fewer than four rows exist. */
  function AddCompetitor(cs: seq<string>): (r: seq<string>)
    ensures |cs| < MaxCompetitors ==> |r| == |cs| + 1 && r[..|cs|] == cs && r[|cs|] == ""
    ensures |cs| >= MaxCompetitors ==> r == cs
  {
    if |cs| < MaxCompetitors then cs + [""] else cs
  }

  /** `removeCompetitor`: `splice(i, 1)` deletes row `i`; an index past the end deletes
      nothing. */
  function RemoveCompetitor(cs: seq<string>, i: nat): (r: seq<string>)
    ensures i < |cs| ==> |r| == |cs| - 1
    ensures i < |cs| ==> forall j :: 0 <= j < i ==> r[j] == cs[j]
    ensures i < |cs| ==> forall j :: i <= j < |r| ==> r[j] == cs[j + 1]
    ensures i >= |cs| ==> r == cs
  {
    if i < |cs| then cs[..i] + cs[i + 1..] else cs
  }

  /** `updateCompetitor`: row `i` takes the typed value. The form only passes the index
      of a rendered row. */
  function UpdateCompetitor(cs: seq<string>, i: nat, v: string): (r: seq<string>)
    requires i < |cs|
    ensures |r| == |cs|
    ensures r[i] == v
    ensures forall j :: 0 <= j < |cs| && j != i ==> r[j] == cs[j]
  {
    cs[i := v]
  }

  /** Putting the removed row back where it was restores the list. */
  lemma RemoveThenReinsert(cs: seq<string>, i: nat)
    requires i < |cs|
    ensures var r := RemoveCompetitor(cs, i); r[..i] + [cs[i]] + r[i..] == cs
  {
    var r := RemoveCompetitor(cs, i);
    assert r[..i] == cs[..i];
    assert r[i..] == cs[i + 1..];
    assert cs[..i] + [cs[i]] + cs[i + 1..] == cs;
  }

  /** Writing the old value back undoes an update. */
  lemma UpdateUndo(cs: seq<string>, i: nat, v: string)
    requires i < |cs|
    ensures UpdateCompetitor(UpdateCompetitor(cs, i, v), i, cs[i]) == cs
  {
    var r := UpdateCompetitor(UpdateCompetitor(cs, i, v), i, cs[i]);
    assert forall j :: 0 <= j < |cs| ==> r[j] == cs[j];
  }

  /** The "add another competitor" button is rendered only below the bound. */
  predicate AddVisible(cs: seq<string>) {
    |cs| < MaxCompetitors
  }

  /** A row's remove button is disabled while it is the only row. */
  predicate RemoveEnabled(cs: seq<string>) {
    |cs| != 1
  }

  /** What the user can do to the competitor list. */
  datatype Edit = Add | Remove(row: nat) | Update(row: nat, value: string)

  /** An edit as the rendered form lets it through: a hidden or disabled button and a
      row that is not on screen do nothing. */
  function ApplyEdit(cs: seq<string>, e: Edit): (r: seq<string>)
    ensures e.Add? && AddVisible(cs) ==> r == AddCompetitor(cs)
    ensures e.Remove? && RemoveEnabled(cs) && e.row < |cs| ==> r == RemoveCompetitor(cs, e.row)
    ensures e.Update? && e.row < |cs| ==> r == UpdateCompetitor(cs, e.row, e.value)
    ensures e.Add? && !AddVisible(cs) ==> r == cs
    ensures e.Remove? && (!RemoveEnabled(cs) || e.row >= |cs|) ==> r == cs
    ensures e.Update? && e.row >= |cs| ==> r == cs
    ensures |r| != |cs| ==> e.Add? || e.Remove?
  {
    match e
    case Add => if AddVisible(cs) then AddCompetitor(cs) else cs
    case Remove(i) => if RemoveEnabled(cs) && i < |cs| then RemoveCompetitor(cs, i) else cs
    case Update(i, v) => if i < |cs| then UpdateCompetitor(cs, i, v) else cs
  }

  /** The list after a series of edits. */
  function ApplyEdits(cs: seq<string>, es: seq<Edit>): seq<string>
    decreases |es|
  {
    if es == [] then cs else ApplyEdits(ApplyEdit(cs, es[0]), es[1..])
  }

  /** One edit keeps the list between one and four rows. */
  lemma EditKeepsRowBounds(cs: seq<string>, e: Edit)
    requires 1 <= |cs| <= MaxCompetitors
    ensures 1 <= |ApplyEdit(cs, e)| <= MaxCompetitors
  {
  }

  /** Whatever the user does, the form shows between one and four competitor rows. */
  lemma {:induction false} EditsKeepRowBounds(cs: seq<string>, es: seq<Edit>)
    requires 1 <= |cs| <= MaxCompetitors
    ensures 1 <= |ApplyEdits(cs, es)| <= MaxCompetitors
    decreases |es|
  {
    if es != [] {
      EditKeepsRowBounds(cs, es[0]);
      EditsKeepRowBounds(ApplyEdit(cs, es[0]), es[1..]);
    }
  }

  /** The form as first shown is within the bounds, so it stays there. */
  lemma InitialRowsInBounds(es: seq<Edit>)
    ensures 1 <= |ApplyEdits(InitialCompetitors, es)| <= MaxCompetitors
  {
    EditsKeepRowBounds(InitialCompetitors, es);
  }

  /** A competitor entry that survives submission: non-blank after trimming. */
  predicate NonBlank(c: string) {
    Trim(c) != ""
  }

  /** The arguments handed to `onStartAnalysis`. */
  datatype Submission = Submission(primaryUrl: string, competitors: seq<string>)

  /** `handleSubmit`: nothing when the primary URL is empty; otherwise the primary URL as
      typed and the non-blank competitor entries, untrimmed. */
  function HandleSubmit(primaryUrl: string, cs: seq<string>): (r: Option<Submission>)
    ensures r.None? <==> primaryUrl == ""
    ensures r.Some? ==> r.value.primaryUrl == primaryUrl
    ensures r.Some? ==> |r.value.competitors| <= |cs|
    ensures r.Some? ==> forall i :: 0 <= i < |r.value.competitors| ==>
              r.value.competitors[i] in cs && !AllWhitespace(r.value.competitors[i])
    ensures r.Some? ==> forall i :: 0 <= i < |cs| && !AllWhitespace(cs[i]) ==> cs[i] in r.value.competitors
  {
    if primaryUrl == "" then None
    else
      var kept := Filter(cs, NonBlank);
      forall c | c in kept ensures !AllWhitespace(c) { TrimEmptyIff(c); }
      forall i | 0 <= i < |cs| && !AllWhitespace(cs[i]) ensures NonBlank(cs[i]) { TrimEmptyIff(cs[i]); }
      Some(Submission(primaryUrl, kept))
  }

  /** A primary URL of spaces is not empty, so it is submitted as it is. */
  lemma WhitespacePrimaryPasses(cs: seq<string>)
    ensures HandleSubmit(" ", cs).Some?
    ensures HandleSubmit(" ", cs).value.primaryUrl == " "
  {
  }

  /** Submitted competitors keep their order: the entries of the first rows come before
      those of the later rows. */
  lemma SubmitKeepsOrder(primaryUrl: string, a: seq<string>, b: seq<string>)
    requires primaryUrl != ""
    ensures HandleSubmit(primaryUrl, a + b).value.competitors
         == HandleSubmit(primaryUrl, a).value.competitors + HandleSubmit(primaryUrl, b).value.competitors
  {
    FilterConcat(a, b, NonBlank);
  }

  /** A row is passed on exactly as typed, edge spaces included, when it holds anything
      but whitespace, and dropped otherwise; with `SubmitKeepsOrder` this fixes the
      submitted list for every form. */
  lemma SubmitDoesNotTrim(primaryUrl: string, c: string)
    requires primaryUrl != ""
    ensures !AllWhitespace(c) ==> HandleSubmit(primaryUrl, [c]).value.competitors == [c]
    ensures AllWhitespace(c) ==> HandleSubmit(primaryUrl, [c]).value.competitors == []
  {
    TrimEmptyIff(c);
    assert [c][1..] == [];
    assert Filter([c][1..], NonBlank) == [];
  }

  /** `isLoading`: a job is running. */
  predicate IsLoading(status: JobStatus) {
    status == Crawling || status == Analyzing
  }

  /** What the component shows: the progress panel while loading, the form otherwise. */
  datatype Screen = LoadingPanel(message: string) | EntryForm

  function View(status: JobStatus, progressMessage: string): (v: Screen)
    ensures v.LoadingPanel? <==> status in {Crawling, Analyzing}
    ensures v.LoadingPanel? ==> v.message == progressMessage
  {
    if IsLoading(status) then LoadingPanel(progressMessage) else EntryForm
  }
}
