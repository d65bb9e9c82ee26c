/**
 * The experiment view: the experiment list and the selected experiment, the create form
 * (filled by hand, from a template or from a generated plan), toggling protocol steps,
 * applying a rewritten text, and dictation into the selected experiment.
 *
 * The pure transforms are functions; `ExperimentView` holds the component's state fields
 * and its methods write the transforms' results into them.
 */
module ExperimentList {
  import opened Types
  import opened JsString
  import Seqs

  /** The create form: title, comma-separated tags, content, one line per protocol step. */
  datatype NewExpForm = NewExpForm(title: string, tags: string, content: string, protocolSteps: seq<string>)

  const EmptyForm := NewExpForm([], [], [], [])

  datatype CreateMode = Manual | Ai

  /** A generated plan as the remote service returns it; any field may be missing. */
  datatype AiPlan = AiPlan(title: Option<string>, tags: Option<seq<string>>, content: Option<string>,
                           protocolSteps: Option<seq<string>>)

  ghost predicate UniqueIds(exps: seq<Experiment>) {
    forall i, j :: 0 <= i < j < |exps| ==> exps[i].id != exps[j].id
  }

  // ---------------------------------------------------------------------------------
  // Selection

  /** Array.prototype.find on the id: the first experiment whose id is the selected one. */
  function FirstMatch(exps: seq<Experiment>, selected: Option<string>): (r: Option<nat>)
    ensures r.Some? ==> r.value < |exps| && selected == Some(exps[r.value].id)
    ensures r.Some? ==> forall j :: 0 <= j < r.value ==> exps[j].id != selected.value
    ensures r.None? ==> forall j :: 0 <= j < |exps| ==> selected != Some(exps[j].id)
  {
    if selected.None? || exps == [] then None
    else if exps[0].id == selected.value then Some(0)
    else
      var rest := FirstMatch(exps[1..], selected);
      if rest.None? then None else Some(rest.value + 1)
  }

  // ---------------------------------------------------------------------------------
  // Protocol steps

  /** Flips `completed` on the steps with the given id; every other step and field is kept. */
  function ToggledSteps(steps: seq<ProtocolStep>, stepId: string): (r: seq<ProtocolStep>)
    ensures |r| == |steps|
    ensures forall i :: 0 <= i < |steps| ==>
      r[i] == steps[i].(completed := if steps[i].id == stepId then !steps[i].completed else steps[i].completed)
  {
    seq(|steps|, i requires 0 <= i < |steps| =>
      if steps[i].id == stepId then steps[i].(completed := !steps[i].completed) else steps[i])
  }

  lemma {:induction false} ToggledStepsTwice(steps: seq<ProtocolStep>, stepId: string)
    ensures ToggledSteps(ToggledSteps(steps, stepId), stepId) == steps
  {
    var r := ToggledSteps(ToggledSteps(steps, stepId), stepId);
    assert forall i :: 0 <= i < |steps| ==> r[i] == steps[i];
  }

  /**
   * toggleStep: the selected experiment's steps with that id flip; the experiments that
   * carry the selected id get those steps; nothing changes when nothing is selected.
   */
  function StepToggled(exps: seq<Experiment>, selected: Option<string>, stepId: string): (r: seq<Experiment>)
    ensures |r| == |exps|
    ensures FirstMatch(exps, selected).None? ==> r == exps
    ensures FirstMatch(exps, selected).Some? ==>
      var k := FirstMatch(exps, selected).value;
      forall i :: 0 <= i < |exps| ==>
        r[i] == if exps[i].id == exps[k].id then exps[i].(protocolSteps := ToggledSteps(exps[k].protocolSteps, stepId))
                else exps[i]
  {
    match FirstMatch(exps, selected)
    case None => exps
    case Some(k) =>
      var steps := ToggledSteps(exps[k].protocolSteps, stepId);
      seq(|exps|, i requires 0 <= i < |exps| =>
        if exps[i].id == exps[k].id then exps[i].(protocolSteps := steps) else exps[i])
  }

  /** With unique ids, toggling affects the selected experiment alone. */
  lemma {:induction false} ToggleStepFrame(exps: seq<Experiment>, selected: Option<string>, stepId: string)
    requires UniqueIds(exps)
    requires FirstMatch(exps, selected).Some?
    ensures var k, r := FirstMatch(exps, selected).value, StepToggled(exps, selected, stepId);
      && r[k] == exps[k].(protocolSteps := ToggledSteps(exps[k].protocolSteps, stepId))
      && forall i :: 0 <= i < |exps| && i != k ==> r[i] == exps[i]
  {
    var k := FirstMatch(exps, selected).value;
    forall i | 0 <= i < |exps| && i != k ensures exps[i].id != exps[k].id {
      if i < k {
        assert exps[i].id != exps[k].id;
      } else {
        assert exps[k].id != exps[i].id;
      }
    }
  }

  /** Toggling the same step twice restores the list, when experiment ids are unique. */
  lemma {:induction false} ToggleStepTwice(exps: seq<Experiment>, selected: Option<string>, stepId: string)
    requires UniqueIds(exps)
    ensures StepToggled(StepToggled(exps, selected, stepId), selected, stepId) == exps
  {
    var once := StepToggled(exps, selected, stepId);
    if FirstMatch(exps, selected).Some? {
      var k := FirstMatch(exps, selected).value;
      ToggleStepFrame(exps, selected, stepId);
      ToggledStepsTwice(exps[k].protocolSteps, stepId);
      assert forall i :: 0 <= i < |once| ==> once[i].id == exps[i].id;
      assert FirstMatch(once, selected) == Some(k) by {
        FirstMatchSameIds(exps, once, selected);
      }
      assert UniqueIds(once);
      ToggleStepFrame(once, selected, stepId);
      var twice := StepToggled(once, selected, stepId);
      assert forall i :: 0 <= i < |exps| ==> twice[i] == exps[i];
    }
  }

  /** `find` looks only at ids. */
  lemma {:induction false} FirstMatchSameIds(a: seq<Experiment>, b: seq<Experiment>, selected: Option<string>)
    requires |a| == |b| && forall i :: 0 <= i < |a| ==> a[i].id == b[i].id
    ensures FirstMatch(a, selected) == FirstMatch(b, selected)
    decreases |a|
  {
    if selected.Some? && a != [] && a[0].id != selected.value {
      FirstMatchSameIds(a[1..], b[1..], selected);
    }
  }

  // ---------------------------------------------------------------------------------
  // Applying a rewritten text

  /**
   * applySuggestion: with an experiment selected and a suggestion under review, the
   * experiments with the selected id take the suggestion as content and the suggestion is
   * cleared; otherwise nothing changes.
   */
  function SuggestionApplied(exps: seq<Experiment>, selected: Option<string>, suggestion: Option<string>)
    : (r: (seq<Experiment>, Option<string>))
    ensures FirstMatch(exps, selected).None? || suggestion.None? ==> r == (exps, suggestion)
    ensures FirstMatch(exps, selected).Some? && suggestion.Some? ==>
      && r.1 == None
      && |r.0| == |exps|
      && forall i :: 0 <= i < |exps| ==>
           r.0[i] == if Some(exps[i].id) == selected then exps[i].(content := suggestion.value) else exps[i]
  {
    if FirstMatch(exps, selected).None? || suggestion.None? then (exps, suggestion)
    else
      (seq(|exps|, i requires 0 <= i < |exps| =>
         if Some(exps[i].id) == selected then exps[i].(content := suggestion.value) else exps[i]),
       None)
  }

  /** Applying a suggestion changes only contents: ids, titles, steps and tags stay. */
  lemma {:induction false} ApplySuggestionKeepsAllButContent(exps: seq<Experiment>, selected: Option<string>,
                                                             suggestion: Option<string>)
    ensures var r := SuggestionApplied(exps, selected, suggestion).0;
      |r| == |exps| && forall i :: 0 <= i < |exps| ==> r[i] == exps[i].(content := r[i].content)
  {
  }

  // ---------------------------------------------------------------------------------
  // Creating an experiment

  /** The id's fixed part: "EXP-", the local year and a dash. */
  function IdPrefix(year: nat): string {
    "EXP-" + NatToString(year) + "-"
  }

  /** The id's counter: the new list length, zero-padded to three digits. */
  function IdCounter(count: nat): string {
    PadStart(NatToString(count + 1), 3, '0')
  }

  /** The new id: the year's prefix followed by the counter. */
  function ExperimentId(year: nat, count: nat): string {
    IdPrefix(year) + IdCounter(count)
  }

  /** Two experiments created in the same year from lists of different lengths get different ids. */
  lemma {:induction false} ExperimentIdInjective(year: nat, m: nat, n: nat)
    requires ExperimentId(year, m) == ExperimentId(year, n)
    ensures m == n
  {
    CounterAfterPrefixInjective(IdPrefix(year), m, n);
  }

  lemma {:induction false} CounterAfterPrefixInjective(p: string, m: nat, n: nat)
    requires p + IdCounter(m) == p + IdCounter(n)
    ensures m == n
  {
    CancelPrefix(p, IdCounter(m), IdCounter(n));
    IdCounterValue(m);
    IdCounterValue(n);
  }

  /** The id starts with "EXP-" and ends with its counter. */
  lemma {:induction false} ExperimentIdShape(year: nat, count: nat)
    ensures StartsWith(ExperimentId(year, count), "EXP-")
    ensures ExperimentId(year, count) == IdPrefix(year) + IdCounter(count)
  {
    var p := IdPrefix(year);
    assert p[..4] == "EXP-";
    assert (p + IdCounter(count))[..4] == p[..4];
  }

  /** The counter is at least three digits and reads back as the new list length. */
  lemma {:induction false} IdCounterValue(count: nat)
    ensures |IdCounter(count)| >= 3 && AllDigits(IdCounter(count))
    ensures DigitsValue(IdCounter(count)) == count + 1
  {
    PaddedNumber(count + 1, 3);
  }

  /** Each piece passed through `clean`, the empty results dropped: `.map(clean).filter(Boolean)`. */
  function CleanTags(pieces: seq<string>, clean: string -> string): seq<string>
  {
    if pieces == [] then []
    else
      var t := clean(pieces[|pieces| - 1]);
      CleanTags(pieces[..|pieces| - 1], clean) + (if t == [] then [] else [t])
  }

  /** The tag field split on commas, each piece trimmed, empty pieces dropped. */
  function ParseTags(s: string): seq<string>
  {
    CleanTags(Split(s, ','), Trim)
  }

  /**
   * Cleaning keeps at most one tag per piece, and every tag is non-empty; when every
   * cleaned piece is trimmed and free of `c`, so is every tag.
   */
  lemma {:induction false} CleanTagsFacts(pieces: seq<string>, clean: string -> string, c: char)
    requires forall i :: 0 <= i < |pieces| ==> Trimmed(clean(pieces[i])) && c !in clean(pieces[i])
    ensures |CleanTags(pieces, clean)| <= |pieces|
    ensures forall i :: 0 <= i < |CleanTags(pieces, clean)| ==>
      var t := CleanTags(pieces, clean)[i];
      t != [] && Trimmed(t) && c !in t
  {
    if pieces != [] {
      var init := pieces[..|pieces| - 1];
      assert forall i :: 0 <= i < |init| ==> init[i] == pieces[i];
      CleanTagsFacts(init, clean, c);
    }
  }

  /** Every parsed tag is non-empty, trimmed and free of commas, and there are no more tags than pieces. */
  lemma {:induction false} ParseTagsClean(s: string)
    ensures CleanTagList(ParseTags(s))
    ensures |ParseTags(s)| <= |Split(s, ',')|
  {
    var pieces := Split(s, ',');
    SplitPiecesOmitSeparator(s, ',');
    forall i | 0 <= i < |pieces| ensures Trimmed(Trim(pieces[i])) && ',' !in Trim(pieces[i]) {
      if ',' in Trim(pieces[i]) {
        TrimKeepsCharacters(pieces[i], ',');
      }
    }
    CleanTagsFacts(pieces, Trim, ',');
  }

  /** Protocol lines become steps "s0", "s1", …, not completed, without notes. */
  function NumberedSteps(lines: seq<string>): seq<ProtocolStep>
  {
    seq(|lines|, i requires 0 <= i < |lines| => ProtocolStep(StepId(i), lines[i], false, None))
  }

  /** The id of the step made from line `i`. */
  function StepId(i: nat): string {
    "s" + NatToString(i)
  }

  /** One step per line, in order, each open and without notes; the step ids are pairwise different. */
  lemma {:induction false} NumberedStepsFacts(lines: seq<string>)
    ensures |NumberedSteps(lines)| == |lines|
    ensures forall i :: 0 <= i < |lines| ==>
      var st := NumberedSteps(lines)[i];
      st.instruction == lines[i] && !st.completed && st.notes == None
    ensures forall i, j :: 0 <= i < j < |lines| ==> NumberedSteps(lines)[i].id != NumberedSteps(lines)[j].id
  {
    var r := NumberedSteps(lines);
    forall i, j | 0 <= i < j < |lines| ensures r[i].id != r[j].id {
      if StepId(i) == StepId(j) {
        CancelPrefix("s", NatToString(i), NatToString(j));
        NatToStringInjective(i, j);
      }
    }
  }

  /** The title of an experiment created with an empty title field. */
  const UntitledTitle := "Untitled Experiment"

  /** The signed-in author every new experiment is credited to. */
  const CurrentAuthor := "Dr. Sarah Chen"

  /**
   * The experiment handleCreateExperiment builds from the form, the current list length,
   * the local year and the current instant in ISO-8601 text.
   */
  function NewExperiment(form: NewExpForm, count: nat, year: nat, isoNow: string): Experiment
  {
    Experiment(
      ExperimentId(year, count),
      if form.title == [] then UntitledTitle else form.title,
      CurrentAuthor,
      Split(isoNow, 'T')[0],
      Draft,
      form.content,
      NumberedSteps(form.protocolSteps),
      ParseTags(form.tags))
  }

  /**
   * A new experiment is a draft by the current author with the form's content. Its title is
   * never empty: the form's, or "Untitled Experiment". Its id starts with "EXP-" and its
   * counter reads back as the new list length.
   */
  lemma {:induction false} NewExperimentHeader(form: NewExpForm, count: nat, year: nat, isoNow: string)
    ensures var e := NewExperiment(form, count, year, isoNow);
      && e.status == Draft && e.author == CurrentAuthor && e.content == form.content
      && e.title != [] && (form.title != [] <==> e.title == form.title)
      && StartsWith(e.id, "EXP-") && e.id == IdPrefix(year) + IdCounter(count)
      && DigitsValue(IdCounter(count)) == count + 1
  {
    ExperimentIdShape(year, count);
    IdCounterValue(count);
    assert |UntitledTitle| == 19;
  }

  /** A new experiment has one open step per protocol line, under pairwise different ids, and clean tags. */
  lemma {:induction false} NewExperimentBody(form: NewExpForm, count: nat, year: nat, isoNow: string)
    ensures var e := NewExperiment(form, count, year, isoNow);
      && |e.protocolSteps| == |form.protocolSteps|
      && (forall i :: 0 <= i < |form.protocolSteps| ==>
            e.protocolSteps[i].instruction == form.protocolSteps[i] && !e.protocolSteps[i].completed)
      && (forall i, j :: 0 <= i < j < |form.protocolSteps| ==> e.protocolSteps[i].id != e.protocolSteps[j].id)
      && CleanTagList(e.tags)
  {
    NumberedStepsFacts(form.protocolSteps);
    ParseTagsClean(form.tags);
  }

  /** The date of the new experiment is the calendar part of the instant. */
  lemma {:induction false} NewExperimentDate(form: NewExpForm, count: nat, year: nat, day: string, time: string)
    requires 'T' !in day
    ensures NewExperiment(form, count, year, day + ['T'] + time).date == day
  {
    SplitAtSeparator(day, 'T', time);
  }

  // ---------------------------------------------------------------------------------
  // Filling the form from a generated plan or a template

  function OrEmpty(s: Option<string>): string {
    if s.Some? then s.value else []
  }

  /** handleGenerateWithAI's defaults: missing text is empty, missing lists are empty; tags are joined with ", ". */
  function FormFromPlan(plan: AiPlan): (f: NewExpForm)
    ensures f.title == (if plan.title.Some? then plan.title.value else [])
    ensures f.content == (if plan.content.Some? then plan.content.value else [])
    ensures plan.tags.None? ==> f.tags == []
    ensures plan.tags.Some? ==> f.tags == JoinWith(plan.tags.value, ", ")
    ensures f.protocolSteps == (if plan.protocolSteps.Some? then plan.protocolSteps.value else [])
  {
    NewExpForm(
      OrEmpty(plan.title),
      JoinWith(if plan.tags.Some? then plan.tags.value else [], ", "),
      OrEmpty(plan.content),
      if plan.protocolSteps.Some? then plan.protocolSteps.value else [])
  }

  /** Tags that are non-empty, trimmed and free of commas survive the join and the re-parse. */
  ghost predicate CleanTagList(tags: seq<string>) {
    forall i :: 0 <= i < |tags| ==> tags[i] != [] && Trimmed(tags[i]) && ',' !in tags[i]
  }

  function Spaced(ts: seq<string>): (r: seq<string>)
    ensures |r| == |ts| && forall i :: 0 <= i < |ts| ==> r[i] == [' '] + ts[i]
  {
    seq(|ts|, i requires 0 <= i < |ts| => [' '] + ts[i])
  }

  /** Splitting the ", "-joined tags on ',' gives the first tag and the others with a leading space. */
  lemma {:induction false} SplitJoinedTags(tags: seq<string>)
    requires |tags| >= 1 && forall i :: 0 <= i < |tags| ==> ',' !in tags[i]
    ensures Split(JoinWith(tags, ", "), ',') == [tags[0]] + Spaced(tags[1..])
  {
    if |tags| == 1 {
      SplitWithoutSeparator(tags[0], ',');
    } else {
      var rest := tags[1..];
      var j := JoinWith(rest, ", ");
      assert Split([' '] + j, ',') == Spaced(rest) by {
        forall i | 0 <= i < |rest| ensures ',' !in rest[i] {
          assert rest[i] == tags[i + 1];
        }
        SplitJoinedTags(rest);
        var later := Spaced(rest[1..]);
        assert Split(j, ',') == [rest[0]] + later;
        SplitCons(' ', j, ',');
        assert Spaced(rest) == [[' '] + rest[0]] + later;
      }
      assert JoinWith(tags, ", ") == tags[0] + [','] + ([' '] + j);
      SplitAtSeparator(tags[0], ',', [' '] + j);
    }
  }

  /** When every piece cleans to the matching non-empty tag, cleaning gives exactly those tags. */
  lemma {:induction false} CleanTagsOfPieces(pieces: seq<string>, tags: seq<string>, clean: string -> string)
    requires |pieces| == |tags|
    requires forall i :: 0 <= i < |pieces| ==> clean(pieces[i]) == tags[i] && tags[i] != []
    ensures CleanTags(pieces, clean) == tags
  {
    if pieces != [] {
      CleanTagsOfPieces(pieces[..|pieces| - 1], tags[..|tags| - 1], clean);
      assert tags == tags[..|tags| - 1] + [tags[|tags| - 1]];
    }
  }

  /** Re-parsing the tags of a generated plan gives back those tags. */
  lemma {:induction false} PlanTagsRoundTrip(tags: seq<string>)
    requires CleanTagList(tags)
    ensures ParseTags(JoinWith(tags, ", ")) == tags
  {
    if tags == [] {
      assert Split([], ',') == [[]];
    } else {
      SplitJoinedTags(tags);
      var pieces := [tags[0]] + Spaced(tags[1..]);
      forall i | 0 <= i < |pieces| ensures Trim(pieces[i]) == tags[i] && tags[i] != [] {
        TrimOfTrimmed(tags[i]);
        if i > 0 {
          TrimSpacePrefix(tags[i]);
        }
      }
      CleanTagsOfPieces(pieces, tags, Trim);
    }
  }

  /** What an undefined template item prints as. */
  function ItemText(item: Option<string>): string {
    if item.Some? then item.value else "undefined"
  }

  /**
   * handleTemplateSelect: the option value "category:item" split on ':' gives the tags and
   * the title; the content is a heading plus four empty sections; four standard steps.
   */
  function TemplateForm(value: string): (f: NewExpForm)
    ensures |f.protocolSteps| == 4
    ensures ':' !in f.tags
    ensures ':' !in value ==> f.tags == value && f.title == []
  {
    var pieces := Split(value, ':');
    SplitPiecesOmitSeparator(value, ':');
    assert ':' !in value ==> pieces == [value] by {
      if ':' !in value { SplitWithoutSeparator(value, ':'); }
    }
    var item := if |pieces| > 1 then Some(pieces[1]) else None;
    NewExpForm(
      OrEmpty(item),
      pieces[0],
      "## " + ItemText(item) + "\n\n**Objective:** \n\n**Materials:**\n\n**Method:**\n\n**Results:**",
      ["Prepare necessary reagents and equipment",
       "Perform " + ItemText(item) + " procedure",
       "Record data and observations",
       "Clean up workspace"])
  }

  /** For an option "category:item" the title is the item, the tags the category, step two names the item. */
  lemma {:induction false} TemplateFormOfOption(category: string, item: string)
    requires ':' !in category && ':' !in item
    ensures var f := TemplateForm(category + [':'] + item);
      && f.title == item && f.tags == category
      && f.protocolSteps[1] == "Perform " + item + " procedure"
      && f.content[..3 + |item|] == "## " + item
  {
    SplitAtSeparator(category, ':', item);
    SplitWithoutSeparator(item, ':');
    var f := TemplateForm(category + [':'] + item);
    assert f.content == ("## " + item) + "\n\n**Objective:** \n\n**Materials:**\n\n**Method:**\n\n**Results:**";
  }

  /** A template's category becomes the experiment's one tag once created. */
  lemma {:induction false} TemplateTagsOnCreate(category: string, item: string)
    requires ':' !in category && ':' !in item
    requires Trimmed(category) && category != [] && ',' !in category
    ensures ParseTags(TemplateForm(category + [':'] + item).tags) == [category]
  {
    TemplateFormOfOption(category, item);
    PlanTagsRoundTrip([category]);
  }

  // ---------------------------------------------------------------------------------
  // Dictation

  /** The content after a dictated phrase: old text, a space, the phrase, trimmed. */
  function DictatedContent(content: string, transcript: string): string {
    Trim(content + " " + transcript)
  }

  /** Dictating into tidy text appends the phrase after one space (or starts the text with it). */
  lemma {:induction false} DictationAppends(content: string, transcript: string)
    requires Trimmed(content) && Trimmed(transcript) && transcript != []
    ensures DictatedContent(content, transcript) == if content == [] then transcript else content + " " + transcript
  {
    var s := content + " " + transcript;
    if content == [] {
      assert s == [' '] + transcript;
      TrimSpacePrefix(transcript);
      TrimOfTrimmed(transcript);
    } else {
      assert s[0] == content[0] && s[|s| - 1] == transcript[|transcript| - 1];
      TrimOfTrimmed(s);
    }
  }

  /** The list after dictation into the content: the first experiment with the id gets the phrase. */
  function Dictated(exps: seq<Experiment>, selected: Option<string>, transcript: string): (r: seq<Experiment>)
    ensures |r| == |exps|
    ensures FirstMatch(exps, selected).None? ==> r == exps
    ensures FirstMatch(exps, selected).Some? ==>
      var k := FirstMatch(exps, selected).value;
      r == exps[k := exps[k].(content := DictatedContent(exps[k].content, transcript))]
  {
    match FirstMatch(exps, selected)
    case None => exps
    case Some(k) => exps[k := exps[k].(content := DictatedContent(exps[k].content, transcript))]
  }

  /** The suggestion after dictation into it: the current text (or nothing), a space, the phrase. */
  function DictatedSuggestion(current: Option<string>, transcript: string): (r: Option<string>)
    ensures r.Some? && r.value == OrEmpty(current) + " " + transcript
  {
    Some(OrEmpty(current) + " " + transcript)
  }

  /** The effect on the selection: a suggestion under review is dropped when the selection changes. */
  function AfterSelection(before: Option<string>, after: Option<string>, suggestion: Option<string>): (r: Option<string>)
    ensures before == after ==> r == suggestion
    ensures before != after ==> r == None
  {
    if before == after then suggestion else None
  }

  // ---------------------------------------------------------------------------------
  // The component's state

  class ExperimentView {
    var experiments: seq<Experiment>
    var selectedId: Option<string>
    var aiSuggestion: Option<string>
    var isCreateModalOpen: bool
    var createMode: CreateMode
    var newExpData: NewExpForm
    var aiPrompt: string

    /** Opens on the seed list, with the create dialog and the selection the navigation asked for. */
    constructor(seed: seq<Experiment>, initialCreate: bool, initialSelectedId: Option<string>)
      ensures experiments == seed && aiSuggestion == None
      ensures selectedId == if initialSelectedId.Some? && initialSelectedId.value != [] then initialSelectedId else None
      ensures isCreateModalOpen == initialCreate && createMode == Manual
      ensures newExpData == EmptyForm && aiPrompt == []
    {
      experiments := seed;
      selectedId := if initialSelectedId.Some? && initialSelectedId.value != [] then initialSelectedId else None;
      aiSuggestion := None;
      isCreateModalOpen := initialCreate;
      createMode := Manual;
      newExpData := EmptyForm;
      aiPrompt := [];
    }

    /** Picking an experiment in the list (or going back to none) drops a suggestion under review. */
    method Select(id: Option<string>)
      modifies this
      ensures selectedId == id && aiSuggestion == AfterSelection(old(selectedId), id, old(aiSuggestion))
      ensures experiments == old(experiments) && isCreateModalOpen == old(isCreateModalOpen)
      ensures createMode == old(createMode) && newExpData == old(newExpData) && aiPrompt == old(aiPrompt)
    {
      aiSuggestion := AfterSelection(selectedId, id, aiSuggestion);
      selectedId := id;
    }

    method DiscardSuggestion()
      modifies this
      ensures aiSuggestion == None
      ensures experiments == old(experiments) && selectedId == old(selectedId)
      ensures isCreateModalOpen == old(isCreateModalOpen) && createMode == old(createMode)
      ensures newExpData == old(newExpData) && aiPrompt == old(aiPrompt)
    {
      aiSuggestion := None;
    }

    method ToggleStep(stepId: string)
      modifies this
      ensures experiments == StepToggled(old(experiments), selectedId, stepId)
      ensures selectedId == old(selectedId) && aiSuggestion == old(aiSuggestion)
      ensures isCreateModalOpen == old(isCreateModalOpen) && createMode == old(createMode)
      ensures newExpData == old(newExpData) && aiPrompt == old(aiPrompt)
    {
      experiments := StepToggled(experiments, selectedId, stepId);
    }

    method ApplySuggestion()
      modifies this
      ensures (experiments, aiSuggestion) == SuggestionApplied(old(experiments), selectedId, old(aiSuggestion))
      ensures selectedId == old(selectedId)
      ensures isCreateModalOpen == old(isCreateModalOpen) && createMode == old(createMode)
      ensures newExpData == old(newExpData) && aiPrompt == old(aiPrompt)
    {
      var r := SuggestionApplied(experiments, selectedId, aiSuggestion);
      experiments, aiSuggestion := r.0, r.1;
    }

    /**
     * handleCreateExperiment: prepend the new experiment, select it, close the dialog and
     * reset the form. A change of selection clears the suggestion under review. The Create
     * button is disabled while the title is blank, so the new experiment keeps the form's title.
     */
    method CreateExperiment(year: nat, isoNow: string)
      requires Trim(newExpData.title) != []
      modifies this
      ensures var e := NewExperiment(old(newExpData), |old(experiments)|, year, isoNow);
        experiments == [e] + old(experiments) && selectedId == Some(e.id)
      ensures experiments[0].title == old(newExpData).title
      ensures aiSuggestion == AfterSelection(old(selectedId), selectedId, old(aiSuggestion))
      ensures !isCreateModalOpen && newExpData == EmptyForm && aiPrompt == []
      ensures createMode == old(createMode)
    {
      TrimNonEmpty(newExpData.title);
      var e := NewExperiment(newExpData, |experiments|, year, isoNow);
      Commit(e);
    }

    /** The state updates of handleCreateExperiment once the new experiment is built. */
    method Commit(e: Experiment)
      modifies this
      ensures experiments == [e] + old(experiments) && selectedId == Some(e.id)
      ensures aiSuggestion == AfterSelection(old(selectedId), selectedId, old(aiSuggestion))
      ensures !isCreateModalOpen && newExpData == EmptyForm && aiPrompt == []
      ensures createMode == old(createMode)
    {
      aiSuggestion := AfterSelection(selectedId, Some(e.id), aiSuggestion);
      experiments := [e] + experiments;
      selectedId := Some(e.id);
      isCreateModalOpen := false;
      newExpData := EmptyForm;
      aiPrompt := [];
    }

    /**
     * handleGenerateWithAI once the plan has arrived. The Generate button is disabled while the
     * prompt is blank; the handler's own early return on an empty prompt is kept.
     */
    method GenerateWithAI(plan: AiPlan)
      requires Trim(aiPrompt) != []
      modifies this
      ensures newExpData == FormFromPlan(plan) && createMode == Manual
      ensures experiments == old(experiments) && selectedId == old(selectedId) && aiSuggestion == old(aiSuggestion)
      ensures isCreateModalOpen == old(isCreateModalOpen) && aiPrompt == old(aiPrompt)
    {
      TrimNonEmpty(aiPrompt);
      if aiPrompt != [] {
        newExpData := FormFromPlan(plan);
        createMode := Manual;
      }
    }

    /** handleTemplateSelect: the placeholder option (empty value) changes nothing. */
    method TemplateSelect(value: string)
      modifies this
      ensures value == [] ==> newExpData == old(newExpData)
      ensures value != [] ==> newExpData == TemplateForm(value)
      ensures experiments == old(experiments) && selectedId == old(selectedId) && aiSuggestion == old(aiSuggestion)
      ensures isCreateModalOpen == old(isCreateModalOpen) && createMode == old(createMode) && aiPrompt == old(aiPrompt)
    {
      if value != [] {
        newExpData := TemplateForm(value);
      }
    }

    /**
     * A final dictation result. `listeningFor` and `reviewing` are the selection and the
     * suggestion as they were when listening started: the handler sees those. With a
     * suggestion under review the phrase goes to the current suggestion; otherwise the list
     * is copied and the first experiment with the selected id has the phrase appended.
     */
    method Dictate(transcript: string, listeningFor: Option<string>, reviewing: Option<string>)
      modifies this
      ensures reviewing.Some? ==> aiSuggestion == DictatedSuggestion(old(aiSuggestion), transcript)
                                  && experiments == old(experiments)
      ensures reviewing.None? ==> experiments == Dictated(old(experiments), listeningFor, transcript)
                                  && aiSuggestion == old(aiSuggestion)
      ensures selectedId == old(selectedId) && isCreateModalOpen == old(isCreateModalOpen)
      ensures createMode == old(createMode) && newExpData == old(newExpData) && aiPrompt == old(aiPrompt)
    {
      if reviewing.Some? {
        aiSuggestion := Some(OrEmpty(aiSuggestion) + " " + transcript);
      } else {
        var current := experiments;
        var copy := new Experiment[|current|](i requires 0 <= i < |current| => current[i]);
        var i := 0;
        while i < copy.Length && !(listeningFor.Some? && copy[i].id == listeningFor.value)
          invariant 0 <= i <= copy.Length
          invariant copy[..] == experiments
          invariant forall j :: 0 <= j < i ==> listeningFor != Some(experiments[j].id)
        {
          i := i + 1;
        }
        if i < copy.Length {
          assert FirstMatch(experiments, listeningFor) == Some(i);
          copy[i] := copy[i].(content := Trim(copy[i].content + " " + transcript));
        }
        experiments := copy[..];
      }
    }
  }
}
