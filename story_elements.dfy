/**
 * The story's world, characters and plotlines (src/story/story_elements.py).
 * The three records are values with a `to_dict` view; `StoryElements` holds at
 * most one world and name-keyed maps of characters and plotlines, updated in
 * place by last-write-wins upserts.
 */
module Elements {
  import opened Values

  datatype World = World(name: string, description: string, rules: seq<string>) {
    function ToDict(): (d: Value)
      ensures d.VDict? && d.fields.Keys == {"name", "description", "rules"}
    {
      VDict(map["name" := VStr(name), "description" := VStr(description), "rules" := StrList(rules)])
    }
  }

  datatype Character = Character(name: string, description: string, personality: seq<string>, backstory: string) {
    function ToDict(): (d: Value)
      ensures d.VDict? && d.fields.Keys == {"name", "description", "personality", "backstory"}
    {
      VDict(map["name" := VStr(name), "description" := VStr(description),
                "personality" := StrList(personality), "backstory" := VStr(backstory)])
    }
  }

  datatype Plotline = Plotline(name: string, summary: string, keyEvents: seq<string>) {
    function ToDict(): (d: Value)
      ensures d.VDict? && d.fields.Keys == {"name", "summary", "key_events"}
    {
      VDict(map["name" := VStr(name), "summary" := VStr(summary), "key_events" := StrList(keyEvents)])
    }
  }

  /** Rebuilds each record from its dictionary by calling its constructor with the stored fields. */

  function StrField(d: map<string, Value>, key: string): Option<string> {
    if key in d && d[key].VStr? then Some(d[key].s) else None
  }

  function ListField(d: map<string, Value>, key: string): Option<seq<string>> {
    if key in d then AsStrList(d[key]) else None
  }

  function WorldFromDict(v: Value): Option<World> {
    if !v.VDict? then None
    else
      var name, description, rules := StrField(v.fields, "name"), StrField(v.fields, "description"), ListField(v.fields, "rules");
      if name.Some? && description.Some? && rules.Some? then Some(World(name.value, description.value, rules.value)) else None
  }

  function CharacterFromDict(v: Value): Option<Character> {
    if !v.VDict? then None
    else
      var name, description := StrField(v.fields, "name"), StrField(v.fields, "description");
      var personality, backstory := ListField(v.fields, "personality"), StrField(v.fields, "backstory");
      if name.Some? && description.Some? && personality.Some? && backstory.Some?
      then Some(Character(name.value, description.value, personality.value, backstory.value))
      else None
  }

  function PlotlineFromDict(v: Value): Option<Plotline> {
    if !v.VDict? then None
    else
      var name, summary, keyEvents := StrField(v.fields, "name"), StrField(v.fields, "summary"), ListField(v.fields, "key_events");
      if name.Some? && summary.Some? && keyEvents.Some? then Some(Plotline(name.value, summary.value, keyEvents.value)) else None
  }

  /** Each `to_dict` keeps every constructor field unchanged: rebuilding yields an equal record. */
  lemma WorldRoundTrip(w: World)
    ensures WorldFromDict(w.ToDict()) == Some(w)
  {
    StrListRoundTrip(w.rules);
  }

  lemma CharacterRoundTrip(c: Character)
    ensures CharacterFromDict(c.ToDict()) == Some(c)
  {
    StrListRoundTrip(c.personality);
  }

  lemma PlotlineRoundTrip(p: Plotline)
    ensures PlotlineFromDict(p.ToDict()) == Some(p)
  {
    StrListRoundTrip(p.keyEvents);
  }

  /** The content of a `StoryElements` object. */
  datatype Elements = Elements(world: Option<World>, characters: map<string, Character>, plotlines: map<string, Plotline>)

  const NoElements := Elements(None, map[], map[])

  /** Every character and plotline is filed under its own name. */
  ghost predicate KeyedByName(e: Elements) {
    && (forall n :: n in e.characters ==> e.characters[n].name == n)
    && (forall n :: n in e.plotlines ==> e.plotlines[n].name == n)
  }

  /** Every entry of a name-keyed dictionary is a record whose "name" is its key. */
  predicate EntriesNamedByKey(entries: map<string, Value>) {
    forall n :: n in entries ==> entries[n].VDict? && StrField(entries[n].fields, "name") == Some(n)
  }

  /** The characters and plotlines of a `to_dict` result are both filed under their own names. */
  predicate NamedEntries(d: Value) {
    && d.VDict? && "characters" in d.fields && "plotlines" in d.fields
    && d.fields["characters"].VDict? && EntriesNamedByKey(d.fields["characters"].fields)
    && d.fields["plotlines"].VDict? && EntriesNamedByKey(d.fields["plotlines"].fields)
  }

  function CharactersToDict(characters: map<string, Character>): (d: map<string, Value>)
    ensures d.Keys == characters.Keys
    ensures forall n :: n in characters ==> d[n] == characters[n].ToDict()
  {
    map n | n in characters :: characters[n].ToDict()
  }

  function PlotlinesToDict(plotlines: map<string, Plotline>): (d: map<string, Value>)
    ensures d.Keys == plotlines.Keys
    ensures forall n :: n in plotlines ==> d[n] == plotlines[n].ToDict()
  {
    map n | n in plotlines :: plotlines[n].ToDict()
  }

  /** `StoryElements.to_dict`: an absent world becomes None; the maps keep their keys. */
  function ElementsToDict(e: Elements): (d: Value)
    ensures d.VDict? && d.fields.Keys == {"world", "characters", "plotlines"}
    ensures d.fields["world"] == VNull <==> e.world.None?
    ensures d.fields["characters"] == VDict(CharactersToDict(e.characters))
    ensures d.fields["plotlines"] == VDict(PlotlinesToDict(e.plotlines))
  {
    VDict(map["world" := (if e.world.Some? then e.world.value.ToDict() else VNull),
              "characters" := VDict(CharactersToDict(e.characters)),
              "plotlines" := VDict(PlotlinesToDict(e.plotlines))])
  }

  function CharactersFromDict(v: Value): Option<map<string, Character>> {
    if v.VDict? && forall n :: n in v.fields ==> CharacterFromDict(v.fields[n]).Some?
    then Some(map n | n in v.fields :: CharacterFromDict(v.fields[n]).value)
    else None
  }

  function PlotlinesFromDict(v: Value): Option<map<string, Plotline>> {
    if v.VDict? && forall n :: n in v.fields ==> PlotlineFromDict(v.fields[n]).Some?
    then Some(map n | n in v.fields :: PlotlineFromDict(v.fields[n]).value)
    else None
  }

  function ElementsFromDict(v: Value): Option<Elements> {
    if !v.VDict? || "world" !in v.fields || "characters" !in v.fields || "plotlines" !in v.fields then None
    else
      var w := v.fields["world"];
      var world := if w == VNull then Some(None) else match WorldFromDict(w) case Some(x) => Some(Some(x)) case None => None;
      var characters, plotlines := CharactersFromDict(v.fields["characters"]), PlotlinesFromDict(v.fields["plotlines"]);
      if world.Some? && characters.Some? && plotlines.Some? then Some(Elements(world.value, characters.value, plotlines.value))
      else None
  }

  lemma CharactersRoundTrip(characters: map<string, Character>)
    ensures CharactersFromDict(VDict(CharactersToDict(characters))) == Some(characters)
  {
    var d := CharactersToDict(characters);
    forall n | n in d ensures CharacterFromDict(d[n]) == Some(characters[n]) {
      CharacterRoundTrip(characters[n]);
    }
    var back := map n | n in d :: CharacterFromDict(d[n]).value;
    assert back == characters;
  }

  lemma PlotlinesRoundTrip(plotlines: map<string, Plotline>)
    ensures PlotlinesFromDict(VDict(PlotlinesToDict(plotlines))) == Some(plotlines)
  {
    var d := PlotlinesToDict(plotlines);
    forall n | n in d ensures PlotlineFromDict(d[n]) == Some(plotlines[n]) {
      PlotlineRoundTrip(plotlines[n]);
    }
    var back := map n | n in d :: PlotlineFromDict(d[n]).value;
    assert back == plotlines;
  }

  /** The dictionary view loses nothing: the world, every character and every plotline come back. */
  lemma ElementsRoundTrip(e: Elements)
    ensures ElementsFromDict(ElementsToDict(e)) == Some(e)
  {
    CharactersRoundTrip(e.characters);
    PlotlinesRoundTrip(e.plotlines);
    if e.world.Some? {
      WorldRoundTrip(e.world.value);
    }
  }

  /** Characters and plotlines filed under their own names keep that name in their dictionaries. */
  lemma KeyedEntriesNamed(e: Elements)
    ensures KeyedByName(e) ==> NamedEntries(ElementsToDict(e))
  {
    forall n | n in e.characters ensures StrField(e.characters[n].ToDict().fields, "name") == Some(e.characters[n].name) {
    }
    forall n | n in e.plotlines ensures StrField(e.plotlines[n].ToDict().fields, "name") == Some(e.plotlines[n].name) {
    }
  }

  class StoryElements {
    var world: Option<World>
    var characters: map<string, Character>
    var plotlines: map<string, Plotline>

    function Abs(): Elements
      reads this
    {
      Elements(world, characters, plotlines)
    }

    ghost predicate Valid()
      reads this
    {
      KeyedByName(Abs())
    }

    constructor ()
      ensures Valid() && Abs() == NoElements
    {
      world := None;
      characters := map[];
      plotlines := map[];
    }

    /** Replaces the world; characters and plotlines are untouched. */
    method AddWorld(w: World)
      requires Valid()
      modifies this`world
      ensures Valid()
      ensures world == Some(w)
    {
      world := Some(w);
    }

    /** Upserts by name: a same-named character is replaced wholesale, not merged. */
    method AddCharacter(c: Character)
      requires Valid()
      modifies this`characters
      ensures Valid()
      ensures characters == old(characters)[c.name := c]
      ensures characters[c.name] == c
      ensures forall n :: n != c.name ==> (n in characters <==> n in old(characters))
      ensures forall n :: n != c.name && n in characters ==> characters[n] == old(characters)[n]
    {
      characters := characters[c.name := c];
    }

    /** Upserts by name, as `AddCharacter` does. */
    method AddPlotline(p: Plotline)
      requires Valid()
      modifies this`plotlines
      ensures Valid()
      ensures plotlines == old(plotlines)[p.name := p]
      ensures plotlines[p.name] == p
      ensures forall n :: n != p.name ==> (n in plotlines <==> n in old(plotlines))
      ensures forall n :: n != p.name && n in plotlines ==> plotlines[n] == old(plotlines)[n]
    {
      plotlines := plotlines[p.name := p];
    }

    function ToDict(): (d: Value)
      reads this
      ensures ElementsFromDict(d) == Some(Abs())
      ensures KeyedByName(Abs()) ==> NamedEntries(d)
    {
      ElementsRoundTrip(Abs());
      KeyedEntriesNamed(Abs());
      ElementsToDict(Abs())
    }
  }
}
