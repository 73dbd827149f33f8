/**
 * The world record: maps keyed by MapID, actors keyed by ActorID (0 is the player), the set of
 * active actors, the turn schedule, the random source and the append-only message log.
 */
module WorldModel {
  import opened Optional
  import opened Positions
  import opened MapIds

  type ActorID = int

  /** ActorID{0} is reserved for the player. */
  const PLAYER_ID: ActorID := 0

  datatype Tile = Floor | Wall

  /** A fixed-size grid (`Array2D`), stored row by row. */
  datatype Grid<T> = Grid(width: nat, height: nat, cells: seq<seq<T>>) {

    predicate Valid() {
      |cells| == height && forall y :: 0 <= y < height ==> |cells[y]| == width
    }

    predicate InBounds(p: Position) {
      0 <= p.x < width && 0 <= p.y < height
    }

    function At(p: Position): T
      requires Valid() && InBounds(p)
    {
      cells[p.y][p.x]
    }
  }

  /** A grid of the given size with every cell holding `v`. */
  function NewGrid<T>(width: nat, height: nat, v: T): (g: Grid<T>)
    ensures g.Valid() && g.width == width && g.height == height
    ensures forall p :: g.InBounds(p) ==> g.At(p) == v
  {
    Grid(width, height, seq(height, _ => seq(width, _ => v)))
  }

  /** A static decoration such as stairs; at most one per tile. */
  datatype Fixture = Fixture(name: string, ch: char)

  /** The item kinds the game defines; each overrides `get_name`. */
  datatype ItemKind = HealthPotion | ConfusionScroll

  /** An item stack; `count` defaults to 1. */
  datatype Item = Item(kind: ItemKind, count: int)

  function Name(item: Item): string {
    match item.kind
    case HealthPotion => "health potion"
    case ConfusionScroll => "scroll of confusion"
  }

  /** A single fresh item of the given kind (`count` takes its default). */
  function NewItem(kind: ItemKind): (item: Item)
    ensures item.kind == kind && item.count == 1
  {
    Item(kind, 1)
  }

  datatype Stats = Stats(
    hp: int, maxHp: int, attack: int, defense: int, level: int, xp: int,
    confusedTurns: int, inventory: seq<Item>)

  /** An actor; glyph, colour and behaviour object are not part of this model. */
  datatype Actor = Actor(name: string, id: ActorID, stats: Stats, pos: Position)

  datatype GameMap = GameMap(
    id: MapID,
    tiles: Grid<Tile>,
    explored: Grid<bool>,
    visible: Grid<bool>,
    fixtures: map<Position, Fixture>,
    items: map<Position, seq<Item>>)

  /** The grids of a map are well formed and all of the same size. */
  predicate MapWf(m: GameMap) {
    && m.tiles.Valid() && m.explored.Valid() && m.visible.Valid()
    && m.explored.width == m.tiles.width && m.explored.height == m.tiles.height
    && m.visible.width == m.tiles.width && m.visible.height == m.tiles.height
  }

  /** `visible.at(p)`; a position outside the grid counts as not visible. */
  predicate VisibleAt(m: GameMap, p: Position)
    requires MapWf(m)
  {
    m.visible.InBounds(p) && m.visible.At(p)
  }

  /** The item stacks lying at `p`, first to last (`equal_range(p)`). */
  function ItemsAt(items: map<Position, seq<Item>>, p: Position): seq<Item> {
    if p in items then items[p] else []
  }

  /** The random generator: the seed it was given and how many values have been drawn from it. */
  datatype Rng = Rng(seed: int, draws: nat)

  /** The value of every field of the world. */
  datatype WorldState = WorldState(
    maps: map<MapID, GameMap>,
    currentMapId: MapID,
    actors: map<ActorID, Actor>,
    activeActors: set<ActorID>,
    schedule: seq<ActorID>,
    rng: Rng,
    // Every message in the order it was appended; the lines the game keeps are `Collapsed(log)`.
    log: seq<string>)

  /** `active_map()` exists and is well formed. */
  predicate HasActiveMap(s: WorldState) {
    s.currentMapId in s.maps && MapWf(s.maps[s.currentMapId])
  }

  function ActiveMap(s: WorldState): GameMap
    requires s.currentMapId in s.maps
  {
    s.maps[s.currentMapId]
  }

  /** Replace one actor's stats. */
  function WithStats(s: WorldState, id: ActorID, stats: Stats): (t: WorldState)
    requires id in s.actors
    ensures t.actors.Keys == s.actors.Keys
  {
    s.(actors := s.actors[id := s.actors[id].(stats := stats)])
  }

  /** Append one message to the log. */
  function Logged(s: WorldState, message: string): WorldState {
    s.(log := s.log + [message])
  }

  // ---------------------------------------------------------------- the stored log

  /** A stored log line: its text and how many times in a row it was appended. */
  datatype LogEntry = LogEntry(text: string, count: nat)

  /**
   * Appending to the stored log: a message equal to the last line's text raises that line's count,
   * any other message starts a new line with count 1.
   */
  function Pushed(entries: seq<LogEntry>, text: string): (r: seq<LogEntry>)
    ensures |r| > 0 && r[|r| - 1].text == text
    ensures |entries| > 0 && entries[|entries| - 1].text == text ==>
      && |r| == |entries|
      && r[..|r| - 1] == entries[..|entries| - 1]
      && r[|r| - 1].count == entries[|entries| - 1].count + 1
    ensures !(|entries| > 0 && entries[|entries| - 1].text == text) ==> r == entries + [LogEntry(text, 1)]
  {
    if |entries| > 0 && entries[|entries| - 1].text == text then
      entries[|entries| - 1 := entries[|entries| - 1].(count := entries[|entries| - 1].count + 1)]
    else
      entries + [LogEntry(text, 1)]
  }

  /**
   * The stored log for a stream of appended messages. Every line counts at least one message, no
   * two neighbouring lines repeat a text, and the last line holds the last message.
   */
  function Collapsed(messages: seq<string>): (r: seq<LogEntry>)
    ensures |r| <= |messages|
    ensures |messages| > 0 ==> |r| > 0 && r[|r| - 1].text == messages[|messages| - 1]
    ensures forall i :: 0 <= i < |r| ==> r[i].count >= 1
    ensures forall i :: 0 < i < |r| ==> r[i - 1].text != r[i].text
  {
    if |messages| == 0 then [] else Pushed(Collapsed(messages[..|messages| - 1]), messages[|messages| - 1])
  }

  /** `count` copies of a message. */
  function Repeated(text: string, count: nat): (r: seq<string>)
    ensures |r| == count && forall i :: 0 <= i < count ==> r[i] == text
  {
    if count == 0 then [] else Repeated(text, count - 1) + [text]
  }

  /** The message stream a stored log stands for: each line's text, as many times as its count. */
  function Expanded(entries: seq<LogEntry>): seq<string> {
    if |entries| == 0 then []
    else Expanded(entries[..|entries| - 1]) + Repeated(entries[|entries| - 1].text, entries[|entries| - 1].count)
  }

  /** Pushing a message onto the stored log adds exactly that message to the stream it stands for. */
  lemma ExpandedPushed(entries: seq<LogEntry>, text: string)
    ensures Expanded(Pushed(entries, text)) == Expanded(entries) + [text]
  {
    var n := |entries|;
    if n > 0 && entries[n - 1].text == text {
      var r := Pushed(entries, text);
      assert r[..n - 1] == entries[..n - 1];
      var last := entries[n - 1];
      assert Repeated(text, last.count + 1) == Repeated(text, last.count) + [text];
    } else {
      assert (entries + [LogEntry(text, 1)])[..n] == entries;
      assert Repeated(text, 1) == [text];
    }
  }

  /** Collapsing loses nothing: expanding the stored log gives back every message, in order. */
  lemma {:induction false} CollapsedRoundTrip(messages: seq<string>)
    ensures Expanded(Collapsed(messages)) == messages
  {
    if |messages| > 0 {
      var prefix, last := messages[..|messages| - 1], messages[|messages| - 1];
      var stored := Collapsed(prefix);
      calc {
        Expanded(Collapsed(messages));
        Expanded(Pushed(stored, last));
        { ExpandedPushed(stored, last); }
        Expanded(stored) + [last];
        { CollapsedRoundTrip(prefix); }
        prefix + [last];
        messages;
      }
    }
  }

  /**
   * Logging a message again straight after itself adds no line to the stored log: the last line's
   * count goes up by one. Any other message adds one line with count 1.
   */
  lemma LoggingCollapsesRepeats(log: seq<string>, message: string)
    ensures |log| > 0 && log[|log| - 1] == message ==>
      && |Collapsed(log + [message])| == |Collapsed(log)|
      && Collapsed(log + [message])[|Collapsed(log)| - 1].count == Collapsed(log)[|Collapsed(log)| - 1].count + 1
    ensures !(|log| > 0 && log[|log| - 1] == message) ==>
      Collapsed(log + [message]) == Collapsed(log) + [LogEntry(message, 1)]
  {
    assert (log + [message])[..|log|] == log;
  }

  class World {
    var maps: map<MapID, GameMap>
    var currentMapId: MapID
    var actors: map<ActorID, Actor>
    var activeActors: set<ActorID>
    var schedule: seq<ActorID>
    var rng: Rng
    // The appended messages; the stored lines, with repeat counts, are `Collapsed(log)`.
    var log: seq<string>

    function State(): WorldState
      reads this
    {
      WorldState(maps, currentMapId, actors, activeActors, schedule, rng, log)
    }

    /** An empty world with an unseeded generator and a default-constructed current map id. */
    constructor ()
      ensures State() == WorldState(map[], MapID("", DEFAULT_LEVEL), map[], {}, [], Rng(0, 0), [])
    {
      maps := map[];
      currentMapId := MapID("", DEFAULT_LEVEL);
      actors := map[];
      activeActors := {};
      schedule := [];
      rng := Rng(0, 0);
      log := [];
    }

    /** Overwrite every field with the given state. */
    method Assign(t: WorldState)
      modifies this
      ensures State() == t
    {
      maps, currentMapId, actors, activeActors := t.maps, t.currentMapId, t.actors, t.activeActors;
      schedule, rng, log := t.schedule, t.rng, t.log;
    }
  }

  /** Decimal text of an integer, as `fmt::format("{}")` prints it. */
  function IntToString(i: int): string {
    if i < 0 then "-" + NatToString(-i) else NatToString(i)
  }

  function NatToString(n: nat): string {
    if n < 10 then [DigitChar(n)] else NatToString(n / 10) + [DigitChar(n % 10)]
  }

  function DigitChar(d: nat): char
    requires d < 10
  {
    "0123456789"[d]
  }
}
