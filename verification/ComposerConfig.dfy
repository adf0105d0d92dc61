/**
  The composer's pending configuration (apps/web/src/composerConfig.ts): its edits, its stored
  form, and when a send may discard it.
 */
module ComposerConfig {
  import opened Prelude

  datatype Profile = Inherit | NoProfile | Preset(id: string)

  datatype Harness = Auto | Pinned(harnessId: string)

  datatype Model = Model(providerId: string, modelId: string, harnessId: Option<string>)

  /** Absent inherits the defaults; AutoThinking is an explicit Auto (null). */
  datatype Thinking = Absent | AutoThinking | Level(name: string)

  datatype Config = Config(
    profile: Profile, harness: Option<Harness>, model: Option<Model>, agent: Option<string>, thinking: Thinking)

  const EMPTY := Config(Inherit, None, None, None, Absent)

  const NONE: string := "none"
  const OPENCODE: string := "opencode"

  // ---- the stored form ---------------------------------------------------------------------

  /** The JSON value: absent members are None. */
  datatype Stored = Stored(
    profile: Option<string>, harness: Option<Harness>, model: Option<Model>, agent: Option<string>, thinking: Thinking)

  predicate Truthy(s: Option<string>) {
    s.Some? && s.value != []
  }

  function Kept(s: Option<string>): Option<string> {
    if Truthy(s) then s else None
  }

  predicate Lower(c: char) {
    'a' <= c <= 'z'
  }

  /** A lower-case letter, then lower-case letters, digits and dashes. */
  predicate HarnessName(s: string) {
    && s != [] && Lower(s[0])
    && forall i :: 0 < i < |s| ==> Lower(s[i]) || '0' <= s[i] <= '9' || s[i] == '-'
  }

  function Serialize(c: Config): Stored {
    Stored(match c.profile case Preset(id) => Some(id) case NoProfile => Some(NONE) case Inherit => None,
           c.harness,
           match c.model case Some(m) => Some(m.(harnessId := Kept(m.harnessId))) case None => None,
           Kept(c.agent),
           c.thinking)
  }

  function ParseHarness(h: Option<Harness>): Option<Harness> {
    if h.Some? && h.value.Pinned? && !HarnessName(h.value.harnessId) then None else h
  }

  function Parse(v: Stored): Config {
    Config(if v.profile == Some(NONE) then NoProfile else if Truthy(v.profile) then Preset(v.profile.value) else Inherit,
           ParseHarness(v.harness),
           match v.model case Some(m) => Some(m.(harnessId := Kept(m.harnessId))) case None => None,
           Kept(v.agent),
           if v.thinking.Level? && v.thinking.name == [] then Absent else v.thinking)
  }

  /** What a caller can check of a configuration: no empty strings, a preset id that does not
      read "none", and a pinned harness whose name fits the grammar. */
  predicate WellFormed(c: Config) {
    && (c.profile.Preset? ==> c.profile.id != [] && c.profile.id != NONE)
    && (c.harness.Some? && c.harness.value.Pinned? ==> HarnessName(c.harness.value.harnessId))
    && (c.model.Some? && c.model.value.harnessId.Some? ==> c.model.value.harnessId.value != [])
    && (c.agent.Some? ==> c.agent.value != [])
    && (c.thinking.Level? ==> c.thinking.name != [])
  }

  /** Reading back what was saved gives the same configuration exactly when it is well formed. */
  lemma RoundTripExact(c: Config)
    ensures Parse(Serialize(c)) == c <==> WellFormed(c)
  {
  }

  /** Whatever was stored, what is read is well formed. */
  lemma ParsedIsWellFormed(v: Stored)
    ensures WellFormed(Parse(v))
  {
  }

  predicate ConfigEquals(a: Config, b: Config) {
    Serialize(a) == Serialize(b)
  }

  /** Comparing serialized forms is structural equality on well-formed configurations. */
  lemma EqualsIsStructural(a: Config, b: Config)
    requires WellFormed(a) && WellFormed(b)
    ensures ConfigEquals(a, b) <==> a == b
  {
    RoundTripExact(a);
    RoundTripExact(b);
  }

  // ---- edits -------------------------------------------------------------------------------------

  function WithProfile(c: Config, id: string): Config {
    Config(Preset(id), c.harness, None, None, Absent)
  }

  function WithProfileNone(c: Config): Config {
    c.(profile := NoProfile)
  }

  function ClearPreset(p: Profile): Profile {
    if p.Preset? then NoProfile else p
  }

  function WithExplicitModel(c: Config, model: Option<Model>): Config {
    match model
    case None => c.(model := None)
    case Some(m) =>
      Config(ClearPreset(c.profile), if Truthy(m.harnessId) then Some(Pinned(m.harnessId.value)) else c.harness,
             model, c.agent, c.thinking)
  }

  function WithExplicitAgent(c: Config, agent: Option<string>): Config {
    c.(profile := if Truthy(agent) then ClearPreset(c.profile) else c.profile, agent := Kept(agent))
  }

  function WithExplicitThinking(c: Config, level: Option<string>): Config {
    c.(profile := if Truthy(level) then ClearPreset(c.profile) else c.profile,
       thinking := if Truthy(level) then Level(level.value) else Absent)
  }

  function WithAutoThinking(c: Config): Config {
    c.(thinking := AutoThinking)
  }

  function WithModelForNextTurn(c: Config, model: Model): Config {
    WithExplicitThinking(WithExplicitModel(c, Some(model)), None)
  }

  datatype Saved = Saved(id: string, harnessId: Option<string>)

  function Or(s: Option<string>, fallback: string): string {
    match s case Some(v) => v case None => fallback
  }

  function WantedProfile(c: Config, current: Option<string>): Option<string> {
    match c.profile case Preset(id) => Some(id) case Inherit => current case NoProfile => None
  }

  predicate Compatible(wanted: Option<string>, target: Option<string>, profiles: seq<Saved>) {
    !Truthy(wanted) ||
    (Truthy(target) && exists i :: 0 <= i < |profiles| && profiles[i].id == wanted.value
                                   && Or(profiles[i].harnessId, OPENCODE) == target.value)
  }

  function WithHarnessForNextTurn(c: Config, selection: Harness, currentHarness: Option<string>, currentProfile: Option<string>,
                                  profiles: seq<Saved>): Config {
    var target := match selection case Pinned(id) => Some(id) case Auto => None;
    var keepModel := c.model.Some? && Truthy(target)
                     && Or(c.model.value.harnessId, Or(currentHarness, OPENCODE)) == target.value;
    Config(if Compatible(WantedProfile(c, currentProfile), target, profiles) then c.profile else NoProfile,
           if target.Some? && target == currentHarness then None else Some(selection),
           if keepModel then c.model else None,
           None,
           if keepModel then c.thinking else Absent)
  }

  datatype Edit =
    | SelectProfile(id: string)
    | SelectNone
    | SelectModel(model: Option<Model>)
    | SelectModelForNextTurn(next: Model)
    | SelectAgent(agent: Option<string>)
    | SelectThinking(level: Option<string>)
    | SelectAuto
    | SelectHarness(selection: Harness, harness: Option<string>, profile: Option<string>, profiles: seq<Saved>)

  function Edited(c: Config, e: Edit): Config {
    match e
    case SelectProfile(id) => WithProfile(c, id)
    case SelectNone => WithProfileNone(c)
    case SelectModel(model) => WithExplicitModel(c, model)
    case SelectModelForNextTurn(next) => WithModelForNextTurn(c, next)
    case SelectAgent(agent) => WithExplicitAgent(c, agent)
    case SelectThinking(level) => WithExplicitThinking(c, level)
    case SelectAuto => WithAutoThinking(c)
    case SelectHarness(selection, harness, profile, profiles) =>
      WithHarnessForNextTurn(c, selection, harness, profile, profiles)
  }

  function EditedBy(c: Config, edits: seq<Edit>): Config {
    if edits == [] then c else Edited(EditedBy(c, edits[..|edits| - 1]), edits[|edits| - 1])
  }

  /** A selected preset applies unmodified: no explicit model, agent or thinking level. */
  predicate PresetIsWhole(c: Config) {
    c.profile.Preset? ==> c.model.None? && c.agent.None? && !c.thinking.Level?
  }

  lemma {:induction false} EditsKeepPresetWhole(c: Config, edits: seq<Edit>)
    requires PresetIsWhole(c)
    ensures PresetIsWhole(EditedBy(c, edits))
  {
    if edits != [] {
      EditsKeepPresetWhole(c, edits[..|edits| - 1]);
    }
  }

  /** An edit's own strings are acceptable. */
  predicate Sound(e: Edit) {
    match e
    case SelectProfile(id) => id != [] && id != NONE
    case SelectModel(model) => model.Some? && model.value.harnessId.Some? ==> HarnessName(model.value.harnessId.value)
    case SelectModelForNextTurn(next) => next.harnessId.Some? ==> HarnessName(next.harnessId.value)
    case SelectHarness(selection, _, _, _) => selection.Pinned? ==> HarnessName(selection.harnessId)
    case SelectNone => true
    case SelectAgent(_) => true
    case SelectThinking(_) => true
    case SelectAuto => true
  }

  lemma EditKeepsWellFormed(c: Config, e: Edit)
    requires WellFormed(c) && Sound(e)
    ensures WellFormed(Edited(c, e))
  {
  }

  /** So every configuration reached by such edits, from the empty one or from whatever was
      loaded, survives a reload unchanged. */
  lemma {:induction false} EditsSurviveReload(c: Config, edits: seq<Edit>)
    requires WellFormed(c) && forall i :: 0 <= i < |edits| ==> Sound(edits[i])
    ensures WellFormed(EditedBy(c, edits))
    ensures Parse(Serialize(EditedBy(c, edits))) == EditedBy(c, edits)
  {
    if edits != [] {
      EditsSurviveReload(c, edits[..|edits| - 1]);
      EditKeepsWellFormed(EditedBy(c, edits[..|edits| - 1]), edits[|edits| - 1]);
    }
    RoundTripExact(EditedBy(c, edits));
  }

  lemma {:induction false} EditsCompose(c: Config, a: seq<Edit>, b: seq<Edit>)
    ensures EditedBy(EditedBy(c, a), b) == EditedBy(c, a + b)
  {
    if b == [] {
      assert a + b == a;
    } else {
      EditsCompose(c, a, b[..|b| - 1]);
      assert (a + b)[..|a + b| - 1] == a + b[..|b| - 1];
    }
  }

  function Flat(sessions: seq<seq<Edit>>): seq<Edit> {
    if sessions == [] then [] else Flat(sessions[..|sessions| - 1]) + sessions[|sessions| - 1]
  }

  /** Each session loads what the one before it saved, and edits it. */
  function Sessions(loaded: Stored, sessions: seq<seq<Edit>>): Config {
    if sessions == [] then Parse(loaded)
    else EditedBy(Parse(Serialize(Sessions(loaded, sessions[..|sessions| - 1]))), sessions[|sessions| - 1])
  }

  /** Reloads in between change nothing: whatever was stored first, any number of sessions ends
      as if all their edits had been made in one. */
  lemma {:induction false} ReloadsAreInvisible(loaded: Stored, sessions: seq<seq<Edit>>)
    requires forall i, j :: 0 <= i < |sessions| && 0 <= j < |sessions[i]| ==> Sound(sessions[i][j])
    ensures Sessions(loaded, sessions) == EditedBy(Parse(loaded), Flat(sessions))
    ensures WellFormed(Sessions(loaded, sessions))
    ensures PresetIsWhole(Parse(loaded)) ==> PresetIsWhole(Sessions(loaded, sessions))
  {
    ParsedIsWellFormed(loaded);
    if sessions != [] {
      var before, last := sessions[..|sessions| - 1], sessions[|sessions| - 1];
      ReloadsAreInvisible(loaded, before);
      RoundTripExact(Sessions(loaded, before));
      EditsCompose(Parse(loaded), Flat(before), last);
      EditsSurviveReload(Sessions(loaded, before), last);
    }
    if PresetIsWhole(Parse(loaded)) {
      EditsKeepPresetWhole(Parse(loaded), Flat(sessions));
    }
  }

  // ---- storage ---------------------------------------------------------------------------------------

  class ConfigStore {
    var record: Option<Stored>

    constructor ()
      ensures record == None
    {
      record := None;
    }

    function Loaded(): Config
      reads this
    {
      match record case Some(v) => Parse(v) case None => EMPTY
    }

    method Save(c: Config)
      modifies this
      ensures WellFormed(c) ==> Loaded() == c
      ensures record == if c == EMPTY then None else Some(Serialize(c))
    {
      if c == EMPTY {
        record := None;
      } else {
        record := Some(Serialize(c));
        RoundTripExact(c);
      }
    }

    /** consumeComposerConfig: after a send that recorded `sent`. */
    method Consume(sent: Config)
      modifies this
      // What is dropped is what was sent, or that less the harness the server already applied.
      ensures WellFormed(sent) ==>
                record == if old(Loaded()) == sent || old(Loaded()) == sent.(harness := None) then None else old(record)
    {
      var current := Loaded();
      var rest := sent.(harness := None);
      if record.Some? {
        ParsedIsWellFormed(record.value);
      }
      if WellFormed(sent) {
        EqualsIsStructural(current, sent);
        EqualsIsStructural(current, rest);
      }
      if ConfigEquals(current, sent) || ConfigEquals(current, rest) {
        record := None;
      }
    }
  }
}
