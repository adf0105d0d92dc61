/**
  What each edit of the composer's configuration does, member by member, and what a change of
  harness carries over.
 */
module ComposerEdits {
  import opened Prelude
  import opened ComposerConfig

  // ---- one member at a time ----------------------------------------------------------------------

  /** A choice a preset does not survive: it no longer applies unmodified. */
  predicate Overrides(e: Edit) {
    || (e.SelectModel? && e.model.Some?)
    || e.SelectModelForNextTurn?
    || (e.SelectAgent? && Truthy(e.agent))
    || (e.SelectThinking? && Truthy(e.level))
  }

  /** The profile: a preset when selected, none when cleared, overridden while a preset, or carried
      to a harness it does not belong to; untouched otherwise. */
  lemma ProfileExact(c: Config, e: Edit)
    ensures Edited(c, e).profile ==
            if e.SelectProfile? then Preset(e.id)
            else if e.SelectNone? || (Overrides(e) && c.profile.Preset?) || (e.SelectHarness? && !ProfileBelongs(c, e)) then NoProfile
            else c.profile
  {
  }

  /** The profile that would apply, if any, is saved for the harness selected. */
  predicate ProfileBelongs(c: Config, e: Edit)
    requires e.SelectHarness?
  {
    var wanted := if c.profile.Preset? then Some(c.profile.id) else if c.profile.Inherit? then e.profile else None;
    wanted.None? || wanted.value == [] ||
    (e.selection.Pinned? && e.selection.harnessId != [] &&
     exists i :: 0 <= i < |e.profiles| && SavedFor(e.profiles[i], wanted.value, e.selection.harnessId))
  }

  /** A profile without a harness belongs to opencode. */
  predicate SavedFor(p: Saved, id: string, harness: string) {
    p.id == id && (p.harnessId == Some(harness) || (p.harnessId.None? && harness == OPENCODE))
  }

  /** The model that is chosen runs on the harness selected: its own, else the current one, else
      opencode. */
  predicate ModelBelongs(c: Config, e: Edit)
    requires e.SelectHarness?
  {
    c.model.Some? && e.selection.Pinned? && e.selection.harnessId != [] &&
    match c.model.value.harnessId
    case Some(own) => own == e.selection.harnessId
    case None => match e.harness
      case Some(current) => current == e.selection.harnessId
      case None => e.selection.harnessId == OPENCODE
  }

  /** The model: the one chosen last, until a preset, a clear, or a harness it does not run on. */
  lemma ModelExact(c: Config, e: Edit)
    ensures Edited(c, e).model ==
            if e.SelectModel? then e.model
            else if e.SelectModelForNextTurn? then Some(e.next)
            else if e.SelectProfile? || (e.SelectHarness? && !ModelBelongs(c, e)) then None
            else c.model
  {
  }

  /** The thinking level: what was chosen, until a preset, a new model for the next turn, or a
      harness the model does not run on. */
  lemma ThinkingExact(c: Config, e: Edit)
    ensures Edited(c, e).thinking ==
            if e.SelectAuto? then AutoThinking
            else if e.SelectThinking? && Truthy(e.level) then Level(e.level.value)
            else if e.SelectThinking? || e.SelectProfile? || e.SelectModelForNextTurn? || (e.SelectHarness? && !ModelBelongs(c, e)) then Absent
            else c.thinking
  {
  }

  function ModelHarness(e: Edit): Option<string> {
    match e
    case SelectModel(model) => (match model case Some(m) => Kept(m.harnessId) case None => None)
    case SelectModelForNextTurn(next) => Kept(next.harnessId)
    case _ => None
  }

  /** The harness: pinned by a model that names its own, staged by a selection unless it is the
      one in use, and untouched otherwise. */
  lemma HarnessExact(c: Config, e: Edit)
    ensures Edited(c, e).harness ==
            if e.SelectHarness? then
              (if e.selection.Pinned? && e.harness == Some(e.selection.harnessId) then None else Some(e.selection))
            else if ModelHarness(e).Some? then Some(Pinned(ModelHarness(e).value))
            else c.harness
  {
  }

  /** The agent chosen last, read off the edits. */
  function AgentChosen(edits: seq<Edit>, was: Option<string>): Option<string> {
    if edits == [] then was
    else match edits[|edits| - 1]
      case SelectAgent(agent) => if agent == Some([]) then None else agent
      case SelectProfile(_) => None
      case SelectHarness(_, _, _, _) => None
      case _ => AgentChosen(edits[..|edits| - 1], was)
  }

  /** After any edits the agent is the one chosen last, unless a preset or a harness came after. */
  lemma {:induction false} AgentIsLastChosen(c: Config, edits: seq<Edit>)
    ensures EditedBy(c, edits).agent == AgentChosen(edits, c.agent)
    decreases |edits|
  {
    if edits != [] {
      AgentIsLastChosen(c, edits[..|edits| - 1]);
    }
  }

  /** So after a change of harness everything left belongs to that harness, whatever was edited. */
  lemma NothingCrossesHarnesses(c: Config, edits: seq<Edit>, e: Edit)
    requires e.SelectHarness?
    ensures var before, after := EditedBy(c, edits), Edited(EditedBy(c, edits), e);
            && after.agent.None?
            && (after.model.Some? ==> after.model == before.model && ModelBelongs(before, e))
            && (after.thinking != Absent ==> ModelBelongs(before, e))
            && (after.profile != NoProfile ==> ProfileBelongs(before, e))
  {
    ProfileExact(EditedBy(c, edits), e);
    ModelExact(EditedBy(c, edits), e);
    ThinkingExact(EditedBy(c, edits), e);
  }

  // ---- names ----------------------------------------------------------------------------------------

  predicate Letter(c: char) {
    97 <= c as int <= 122
  }

  predicate Digit(c: char) {
    48 <= c as int <= 57
  }

  /** The names of harnesses, letter by letter: a small letter first, then small letters, digits
      and dashes. */
  lemma HarnessNameExact(s: string, c: char)
    ensures !HarnessName([])
    ensures HarnessName([c]) <==> Letter(c)
    ensures s != [] ==> (HarnessName(s + [c]) <==> HarnessName(s) && (Letter(c) || Digit(c) || c == '-'))
  {
    if s != [] {
      assert (s + [c])[0] == s[0] && (s + [c])[|s|] == c;
      if HarnessName(s + [c]) {
        forall i | 0 < i < |s| ensures Lower(s[i]) || '0' <= s[i] <= '9' || s[i] == '-' {
          assert (s + [c])[i] == s[i];
        }
      }
    }
  }

  /** What is stored names nothing empty: an agent or a model's harness is absent instead. */
  lemma NothingEmptyStored(c: Config)
    ensures Serialize(c).agent != Some([])
    ensures Serialize(c).model.Some? ==> Serialize(c).model.value.harnessId != Some([])
    ensures Serialize(c).model.Some? <==> c.model.Some?
  {
  }
}
