/**
 * The poem authoring form shared by the add and edit pages: a draft kept in
 * `localStorage` in add mode, seeding from an existing poem in edit mode,
 * the payload handed to `onSubmit`, and the word count shown beside the text.
 */
module PoemForm {
  import opened Records
  import opened Seqs
  import opened Text
  import opened Browser

  const DraftKey := "poem_draft"

  /** The form's initial and reset state. */
  const EmptyForm := PoemFields("", "", "", "", "", "", "", "published", false)

  const Incomplete := "Please complete all * fields"
  const Updated := "Poem updated successfully ✨"
  const Published := "Poem published successfully ✨"
  const SaveFailed := "Failed to save poem"

  datatype Mode = Add | Edit

  /** An existing poem as the edit page passes it in; any field may be missing. */
  datatype InitialPoem = InitialPoem(
    title: Option<string>, author: Option<string>, content: Option<string>,
    summary: Option<string>, theme: Option<string>, tags: Option<seq<string>>,
    coverImage: Option<string>, status: Option<string>, featured: Option<bool>)

  /** `value || fallback` for a string that may be missing. */
  function OrElse(value: Option<string>, fallback: string): string
  {
    if value.Some? && value.value != "" then value.value else fallback
  }

  /** `"" || ""` is `""`, so a text field with an empty fallback is just the value when there is one. */
  function TextOf(value: Option<string>): (r: string)
    ensures value.Some? ==> r == value.value
    ensures value.None? ==> r == ""
  {
    OrElse(value, "")
  }

  function JoinTags(tags: seq<string>): string
  {
    Join(tags, ", ")
  }

  /** The form the edit-data effect builds from an existing poem. */
  function Seed(init: InitialPoem): (f: PoemFields)
    ensures f.title == (if init.title.Some? then init.title.value else "")
    ensures f.author == (if init.author.Some? then init.author.value else "")
    ensures f.content == (if init.content.Some? then init.content.value else "")
    ensures f.summary == (if init.summary.Some? then init.summary.value else "")
    ensures f.theme == (if init.theme.Some? then init.theme.value else "")
    ensures f.coverImage == (if init.coverImage.Some? then init.coverImage.value else "")
    ensures f.tags == (if init.tags.Some? then JoinTags(init.tags.value) else "")
    ensures f.status == (if init.status.Some? && init.status.value != "" then init.status.value else "published")
    ensures f.featured <==> init.featured == Some(true)
  {
    PoemFields(
      TextOf(init.title), TextOf(init.author), TextOf(init.content),
      TextOf(init.summary), TextOf(init.theme),
      if init.tags.Some? then JoinTags(init.tags.value) else "",
      TextOf(init.coverImage), OrElse(init.status, "published"),
      init.featured.Some? && init.featured.value)
  }

  /** `pieces.map(t => t.trim())`. */
  function TrimAll(pieces: seq<string>): (r: seq<string>)
    ensures |r| == |pieces|
    ensures forall k :: 0 <= k < |r| ==> r[k] == Trim(pieces[k])
  {
    seq(|pieces|, k requires 0 <= k < |pieces| => Trim(pieces[k]))
  }

  /**
   * The payload's tags: none for an empty tag text, otherwise one trimmed
   * piece per comma-separated part, empty parts included.
   */
  function ParseTags(tags: string): (r: seq<string>)
    ensures tags == "" ==> r == []
    ensures tags != "" ==> |r| == multiset(tags)[','] + 1
    ensures forall k :: 0 <= k < |r| ==> IsTrimmed(r[k]) && ',' !in r[k]
  {
    if tags == "" then []
    else
      var pieces := Split(tags, ',');
      SplitCount(tags, ',');
      TrimAll(pieces)
  }

  /**
   * Which text each parsed tag holds: piece k is the trimmed k-th part of the
   * tag text cut at its commas.
   */
  lemma ParseTagsPieces(tags: string)
    requires tags != ""
    ensures exists parts ::
      Join(parts, ",") == tags && (forall k :: 0 <= k < |parts| ==> ',' !in parts[k])
      && |parts| == |ParseTags(tags)| && forall k :: 0 <= k < |parts| ==> ParseTags(tags)[k] == Trim(parts[k])
  {
    var parts := Split(tags, ',');
    JoinSplit(tags, ',');
    assert Join(parts, ",") == tags;
  }

  /** Tags that survive the text field: no comma inside and no white space around. */
  predicate WellFormedTags(tags: seq<string>)
  {
    forall k :: 0 <= k < |tags| ==> ',' !in tags[k] && IsTrimmed(tags[k])
  }

  function Spaced(tags: seq<string>): (r: seq<string>)
    ensures |r| == |tags|
    ensures forall k :: 0 <= k < |r| ==> r[k] == [' '] + tags[k]
  {
    seq(|tags|, k requires 0 <= k < |tags| => [' '] + tags[k])
  }

  /** A leading space stays on the first piece. */
  lemma SplitAfterSpace(text: string)
    ensures Split([' '] + text, ',') == [[' '] + Split(text, ',')[0]] + Split(text, ',')[1..]
  {
    assert ([' '] + text)[1..] == text;
  }

  /** `", "`-joining puts a comma and then a space between the first tag and the rest. */
  lemma JoinTagsUnfold(tags: seq<string>)
    requires |tags| >= 2
    ensures JoinTags(tags) == tags[0] + [','] + ([' '] + JoinTags(tags[1..]))
  {
    var joined := JoinTags(tags[1..]);
    assert JoinTags(tags) == tags[0] + ", " + joined;
    assert tags[0] + ", " + joined == tags[0] + [','] + ([' '] + joined);
  }

  /** Splitting the `", "`-joined tags at the commas gives each tag back, all but the first behind one space. */
  lemma {:induction false} SplitJoinedTags(tags: seq<string>)
    requires |tags| >= 1
    requires forall k :: 0 <= k < |tags| ==> ',' !in tags[k]
    ensures Split(JoinTags(tags), ',') == [tags[0]] + Spaced(tags[1..])
  {
    if |tags| == 1 {
      SplitWithoutSep(tags[0], ',');
      assert JoinTags(tags) == tags[0];
      assert Spaced(tags[1..]) == [];
    } else {
      var rest := tags[1..];
      var joined := JoinTags(rest);
      JoinTagsUnfold(tags);
      SplitAfterPiece(tags[0], ',', [' '] + joined);
      SplitJoinedTags(rest);
      SplitAfterSpace(joined);
      var split := Split(joined, ',');
      assert split[0] == rest[0];
      assert split[1..] == Spaced(rest[1..]);
      assert [[' '] + rest[0]] + Spaced(rest[1..]) == Spaced(rest);
    }
  }

  /** Trimming the split pieces takes off the spaces the join put in. */
  lemma TrimSpaced(tags: seq<string>)
    requires |tags| >= 1 && WellFormedTags(tags)
    ensures TrimAll([tags[0]] + Spaced(tags[1..])) == tags
  {
    var pieces := [tags[0]] + Spaced(tags[1..]);
    var r := TrimAll(pieces);
    forall k | 0 <= k < |tags|
      ensures r[k] == tags[k]
    {
      if k > 0 {
        assert pieces[k] == [' '] + tags[k];
        TrimAfterSpace(tags[k]);
      }
    }
  }

  /** Joining tags other than a single empty one gives non-empty text. */
  lemma JoinedTagsNonEmpty(tags: seq<string>)
    requires |tags| >= 1 && tags != [""]
    requires forall k :: 0 <= k < |tags| ==> ',' !in tags[k]
    ensures JoinTags(tags) != ""
  {
    if |tags| >= 2 {
      JoinTagsUnfold(tags);
    } else {
      assert tags == [tags[0]];
    }
  }

  /** Joining well-formed tags for the text field and parsing them on submit gives the same tags. */
  lemma TagsRoundTrip(tags: seq<string>)
    requires WellFormedTags(tags)
    requires tags != [""]
    ensures ParseTags(JoinTags(tags)) == tags
  {
    if tags != [] {
      JoinedTagsNonEmpty(tags);
      SplitJoinedTags(tags);
      TrimSpaced(tags);
    }
  }

  /** The one list the round trip loses: a single empty tag joins to empty text, which parses to no tags. */
  lemma SingleEmptyTagLost()
    ensures ParseTags(JoinTags([""])) == []
  {
  }

  /** What `handleSubmit` requires before calling `onSubmit`. */
  predicate RequiredFilled(f: PoemFields)
  {
    f.title != "" && f.author != "" && f.content != ""
  }

  /** The object handed to `onSubmit`: the form, its tags parsed, and in add mode the notification choice. */
  function MakePayload(mode: Mode, f: PoemFields, sendNotification: bool): (p: Payload)
    ensures p.title == f.title && p.author == f.author && p.content == f.content
    ensures p.summary == f.summary && p.theme == f.theme && p.coverImage == f.coverImage
    ensures p.status == f.status && p.featured == f.featured
    ensures p.tags == ParseTags(f.tags)
    ensures p.sendNotification.Some? <==> mode == Add
    ensures mode == Add ==> p.sendNotification == Some(sendNotification)
  {
    Payload(f.title, f.author, f.content, f.summary, f.theme, ParseTags(f.tags),
            f.coverImage, f.status, f.featured,
            if mode == Add then Some(sendNotification) else None)
  }

  /** An edit submitted straight after seeding sends every field of the poem back as it came. */
  lemma UnchangedEditRoundTrip(init: InitialPoem, sendNotification: bool)
    requires init.title.Some? && init.author.Some? && init.content.Some?
    requires init.summary.Some? && init.theme.Some? && init.coverImage.Some?
    requires init.status.Some? && init.status.value != "" && init.featured.Some?
    requires init.tags.Some? && WellFormedTags(init.tags.value) && init.tags.value != [""]
    ensures MakePayload(Edit, Seed(init), sendNotification) == Payload(
      init.title.value, init.author.value, init.content.value, init.summary.value,
      init.theme.value, init.tags.value, init.coverImage.value, init.status.value,
      init.featured.value, None)
  {
    TagsRoundTrip(init.tags.value);
  }

  /** The two modes build the same payload apart from the notification flag. */
  lemma ModesDifferOnlyInNotification(f: PoemFields, sendNotification: bool)
    ensures MakePayload(Add, f, sendNotification).(sendNotification := None) == MakePayload(Edit, f, sendNotification)
  {
  }

  /** `content.trim().split(/\s+/).filter(Boolean).length`. */
  function WordCount(content: string): nat
  {
    |Filter(NonEmpty, SplitOnSpaceRuns(Trim(content)))|
  }

  /** The word count is the number of maximal runs of non-white characters. */
  lemma WordCountCountsRuns(content: string)
    ensures WordCount(content) == RunCount(content, false)
  {
    SplitOnSpaceRunsCount(Trim(content));
    RunCountTrimRight(TrimLeft(content));
    RunCountTrimLeft(content);
  }

  /** The word count is 0 exactly for empty or all-white content. */
  lemma WordCountZeroIffBlank(content: string)
    ensures WordCount(content) == 0 <==> AllSpace(content)
  {
    WordCountCountsRuns(content);
    RunCountZero(content);
  }

  /** `disabled={loading || !form.content}`. */
  predicate SubmitDisabled(loading: bool, f: PoemFields)
  {
    loading || f.content == ""
  }

  /**
   * A complete form can always be submitted when not loading, but the button
   * alone does not enforce completeness: a form with content and no title
   * enables it, and `handleSubmit` refuses it.
   */
  lemma ButtonWeakerThanCheck()
    ensures forall f :: RequiredFilled(f) ==> !SubmitDisabled(false, f)
    ensures exists f :: !SubmitDisabled(false, f) && !RequiredFilled(f)
  {
    var f := EmptyForm.(content := "a line");
    assert !SubmitDisabled(false, f) && !RequiredFilled(f);
  }

  /** The draft a storage holds, if any. */
  function Draft(storage: map<string, Value>): Option<PoemFields>
  {
    if DraftKey in storage && storage[DraftKey].DraftForm? then Some(storage[DraftKey].fields) else None
  }

  /**
   * What a complete submit emits: the payload, then either the failure toast
   * or the mode's success toast followed, in add mode, by the draft removal.
   */
  function SubmitEffects(mode: Mode, payload: Payload, outcome: Response<()>): seq<Effect>
  {
    [Submitted(payload)]
      + match outcome
        case Failed => [Toasted(ErrorToast, SaveFailed)]
        case Ok(_, _) =>
          match mode
          case Edit => [Toasted(SuccessToast, Updated)]
          case Add => [Toasted(SuccessToast, Published), Removed(DraftKey)]
  }

  /** Writing a key just removed is the same as overwriting it. */
  lemma StoreAfterRemove(storage: map<string, Value>, key: string, value: Value)
    ensures (storage - {key})[key := value] == storage[key := value]
  {
  }

  class PoemFormView {
    const mode: Mode
    var form: PoemFields
    var loading: bool
    var sendNotification: bool

    constructor (mode: Mode)
      ensures this.mode == mode && form == EmptyForm && !loading && sendNotification
    {
      this.mode := mode;
      form := EmptyForm;
      loading := false;
      sendNotification := true;
    }

    /** The load-draft effect: in add mode a stored draft replaces the form. */
    method LoadDraft(env: Env)
      modifies this`form
      ensures mode == Add && Draft(env.storage).Some? ==> form == Draft(env.storage).value
      ensures !(mode == Add && Draft(env.storage).Some?) ==> form == old(form)
    {
      if mode == Add {
        var draft := Draft(env.storage);
        if draft.Some? {
          form := draft.value;
        }
      }
    }

    /** The edit-data effect: in edit mode an existing poem replaces the form. */
    method SeedEdit(initial: Option<InitialPoem>)
      modifies this`form
      ensures mode == Edit && initial.Some? ==> form == Seed(initial.value)
      ensures !(mode == Edit && initial.Some?) ==> form == old(form)
    {
      if mode == Edit && initial.Some? {
        form := Seed(initial.value);
      }
    }

    /** The autosave effect: in add mode the form is written to the draft slot; edit mode touches nothing. */
    method Autosave(env: Env)
      modifies env
      ensures mode == Add ==>
        env.storage == old(env.storage)[DraftKey := DraftForm(form)]
        && env.trace == old(env.trace) + [Stored(DraftKey, DraftForm(form))]
      ensures mode == Edit ==> env.storage == old(env.storage) && env.trace == old(env.trace)
    {
      if mode == Add {
        env.SetItem(DraftKey, DraftForm(form));
      }
    }

    /** Mounting: the three effects in the order they are declared. */
    method Mount(env: Env, initial: Option<InitialPoem>)
      modifies this`form, env
      ensures mode == Add ==>
        form == (if Draft(old(env.storage)).Some? then Draft(old(env.storage)).value else old(form))
        && env.storage == old(env.storage)[DraftKey := DraftForm(form)]
        && env.trace == old(env.trace) + [Stored(DraftKey, DraftForm(form))]
      ensures mode == Edit ==>
        form == (if initial.Some? then Seed(initial.value) else old(form))
        && env.storage == old(env.storage) && env.trace == old(env.trace)
    {
      LoadDraft(env);
      SeedEdit(initial);
      Autosave(env);
    }

    /** An edit to any input: the new form, then the autosave effect it triggers. */
    method Change(f: PoemFields, env: Env)
      modifies this`form, env
      ensures form == f
      ensures mode == Add ==>
        env.storage == old(env.storage)[DraftKey := DraftForm(f)]
        && env.trace == old(env.trace) + [Stored(DraftKey, DraftForm(f))]
      ensures mode == Edit ==> env.storage == old(env.storage) && env.trace == old(env.trace)
    {
      form := f;
      Autosave(env);
    }

    /**
     * `handleSubmit`, with `outcome` standing for whether `onSubmit` resolved
     * or threw. An incomplete form only raises the error toast. A successful
     * add resets the form and the notification choice and removes the draft;
     * a successful edit and any failure leave the form as it was.
     */
    method HandleSubmit(env: Env, outcome: Response<()>)
      modifies this`form, this`loading, this`sendNotification, env
      ensures !RequiredFilled(old(form)) ==>
        form == old(form) && loading == old(loading) && sendNotification == old(sendNotification)
        && env.storage == old(env.storage)
        && env.trace == old(env.trace) + [Toasted(ErrorToast, Incomplete)]
      ensures RequiredFilled(old(form)) ==>
        !loading
        && env.trace == old(env.trace) + SubmitEffects(mode, MakePayload(mode, old(form), old(sendNotification)), outcome)
      ensures RequiredFilled(old(form)) && outcome.Ok? && mode == Add ==>
        form == EmptyForm && sendNotification && env.storage == old(env.storage) - {DraftKey}
      ensures RequiredFilled(old(form)) && (outcome.Failed? || mode == Edit) ==>
        form == old(form) && sendNotification == old(sendNotification) && env.storage == old(env.storage)
    {
      if !RequiredFilled(form) {
        env.Toast(ErrorToast, Incomplete);
        return;
      }
      loading := true;
      var payload := MakePayload(mode, form, sendNotification);
      ghost var effects := SubmitEffects(mode, payload, outcome);
      env.Submit(payload);
      match outcome {
        case Ok(_, _) =>
          if mode == Edit {
            env.Toast(SuccessToast, Updated);
          } else {
            env.Toast(SuccessToast, Published);
            form := EmptyForm;
            sendNotification := true;
            env.RemoveItem(DraftKey);
          }
        case Failed =>
          env.Toast(ErrorToast, SaveFailed);
      }
      assert env.trace == old(env.trace) + effects;
      loading := false;
    }

    /**
     * A submit followed by the autosave effect the changed form triggers: after
     * a successful add the draft slot holds the reset form rather than nothing.
     */
    method SubmitAndSettle(env: Env, outcome: Response<()>)
      modifies this`form, this`loading, this`sendNotification, env
      ensures !RequiredFilled(old(form)) ==>
        form == old(form) && loading == old(loading) && sendNotification == old(sendNotification)
        && env.storage == old(env.storage)
        && env.trace == old(env.trace) + [Toasted(ErrorToast, Incomplete)]
      ensures RequiredFilled(old(form)) ==> !loading
      ensures RequiredFilled(old(form)) && outcome.Ok? && mode == Add ==>
        form == EmptyForm && sendNotification
        && env.storage == old(env.storage)[DraftKey := DraftForm(EmptyForm)]
        && env.trace == old(env.trace) + SubmitEffects(Add, MakePayload(Add, old(form), old(sendNotification)), outcome)
          + [Stored(DraftKey, DraftForm(EmptyForm))]
      ensures RequiredFilled(old(form)) && (outcome.Failed? || mode == Edit) ==>
        form == old(form) && sendNotification == old(sendNotification) && env.storage == old(env.storage)
        && env.trace == old(env.trace) + SubmitEffects(mode, MakePayload(mode, old(form), old(sendNotification)), outcome)
    {
      // Only a successful add changes the form (a complete form has a title, the reset one none).
      var resets := RequiredFilled(form) && outcome.Ok? && mode == Add;
      HandleSubmit(env, outcome);
      if resets {
        Autosave(env);
        StoreAfterRemove(old(env.storage), DraftKey, DraftForm(EmptyForm));
      }
    }
  }

  /** A form typed in add mode and left unsubmitted comes back verbatim when the page is opened again. */
  method ReopenRestoresDraft(storage: map<string, Value>, typed: PoemFields) returns (restored: PoemFields)
    ensures restored == typed
  {
    var env := new Env(storage);
    var first := new PoemFormView(Add);
    first.Mount(env, None);
    first.Change(typed, env);
    var second := new PoemFormView(Add);
    second.Mount(env, None);
    restored := second.form;
  }

  /** After a successful publish, opening the page again shows the default form. */
  method ReopenAfterPublish(storage: map<string, Value>, typed: PoemFields) returns (restored: PoemFields)
    requires RequiredFilled(typed)
    ensures restored == EmptyForm
  {
    var env := new Env(storage);
    var first := new PoemFormView(Add);
    first.Mount(env, None);
    first.Change(typed, env);
    first.SubmitAndSettle(env, Ok(200, ()));
    var second := new PoemFormView(Add);
    second.Mount(env, None);
    restored := second.form;
  }

  /** Edit mode never reads the draft slot: whatever it holds, the form opens on the seeded poem. */
  method EditIgnoresDraft(storage: map<string, Value>, initial: InitialPoem) returns (shown: PoemFields, after: map<string, Value>)
    ensures shown == Seed(initial)
    ensures after == storage
  {
    var env := new Env(storage);
    var view := new PoemFormView(Edit);
    view.Mount(env, Some(initial));
    shown := view.form;
    after := env.storage;
  }
}
