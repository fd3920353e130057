/**
 * The eight topic names the dashboard derives from a device id
 * (script.js:73-80), and what can be proved about them: they are pairwise
 * distinct for one id, different ids give different topics whenever the ids
 * contain no '/', and an id with a '/' can share a topic with another id.
 */
module Topics {

  /** The eight channels of one device session. */
  datatype Channel =
    | Telemetry       // device -> dashboard readings
    | ControlHeater   // dashboard -> device heater token
    | ControlMist     // dashboard -> device mist token
    | ControlFeed     // dashboard -> device feed trigger
    | ConfigIn        // dashboard -> device configuration push
    | ConfigOut       // device -> dashboard configuration echo
    | Status          // device -> dashboard events
    | Command         // dashboard -> device generic command

  /** The level a channel's template puts between "farm" and the id. */
  function Word(ch: Channel): string
  {
    match ch
    case Telemetry => "telemetry"
    case ControlHeater | ControlMist | ControlFeed => "control"
    case ConfigIn | ConfigOut => "config"
    case Status => "status"
    case Command => "command"
  }

  /** The level a channel's template puts after the id; empty when there is none. */
  function Sub(ch: Channel): string
  {
    match ch
    case ControlHeater => "heater"
    case ControlMist => "mist"
    case ControlFeed => "feed"
    case ConfigOut => "current"
    case _ => ""
  }

  /** The template string of one channel, `farm/<word>/<id>[/<sub>]`, built from the device id alone. */
  function Topic(id: string, ch: Channel): string
  {
    var rest := if Sub(ch) == "" then id else id + "/" + Sub(ch);
    "farm" + "/" + (Word(ch) + "/" + rest)
  }

  /** The `topics` record of the page, one field per channel. */
  datatype TopicSet = TopicSet(
    telemetry: string, controlHeater: string, controlMist: string, controlFeed: string,
    configIn: string, configOut: string, status: string, command: string)
  {
    function Get(ch: Channel): string
    {
      match ch
      case Telemetry => telemetry
      case ControlHeater => controlHeater
      case ControlMist => controlMist
      case ControlFeed => controlFeed
      case ConfigIn => configIn
      case ConfigOut => configOut
      case Status => status
      case Command => command
    }
  }

  /** The record as the page declares it, before any connect: every topic empty. */
  const Unset := TopicSet("", "", "", "", "", "", "", "")

  /** The record connectToDevice fills in for a device id. */
  function TopicsFor(id: string): TopicSet
  {
    TopicSet(Topic(id, Telemetry), Topic(id, ControlHeater), Topic(id, ControlMist),
             Topic(id, ControlFeed), Topic(id, ConfigIn), Topic(id, ConfigOut),
             Topic(id, Status), Topic(id, Command))
  }

  /** Reading a channel from the derived record gives that channel's template. */
  lemma TopicsForGet(id: string, ch: Channel)
    ensures TopicsFor(id).Get(ch) == Topic(id, ch)
    ensures TopicsFor(id) != Unset
  {
  }

  /** How many characters the template adds around the id. */
  function Overhead(ch: Channel): nat
  {
    match ch
    case Telemetry => 15
    case ControlHeater => 20
    case ControlMist => 18
    case ControlFeed => 18
    case ConfigIn => 12
    case ConfigOut => 20
    case Status => 12
    case Command => 13
  }

  lemma TopicLength(id: string, ch: Channel)
    ensures |Topic(id, ch)| == |id| + Overhead(ch)
  {
  }

  /** For one device id the eight topics are pairwise distinct. */
  lemma TopicsDistinct(id: string, a: Channel, b: Channel)
    requires a != b
    ensures Topic(id, a) != Topic(id, b)
  {
    TopicLength(id, a);
    TopicLength(id, b);
    if Overhead(a) == Overhead(b) {
      // the three pairs of equal length differ at a fixed position
      if {a, b} == {ControlHeater, ConfigOut} {
        assert Topic(id, ControlHeater)[8] == 't' && Topic(id, ConfigOut)[8] == 'f';
      } else if {a, b} == {ControlMist, ControlFeed} {
        var n := |id| + 17;
        assert Topic(id, ControlMist)[n] == 't' && Topic(id, ControlFeed)[n] == 'd';
      } else {
        assert {a, b} == {ConfigIn, Status};
        assert Topic(id, ConfigIn)[5] == 'c' && Topic(id, Status)[5] == 's';
      }
    }
  }

  /**
   * Distinct ids do not always give distinct topics: an id that itself
   * contains "/current" makes its configIn topic another id's configOut topic.
   */
  lemma SlashedIdsCollide()
    ensures Topic("box/current", ConfigIn) == Topic("box", ConfigOut)
    ensures "box/current" != "box"
  {
  }

  /** Splits a topic at every '/', as a broker reads its levels. */
  function Levels(s: string): (r: seq<string>)
    ensures |r| >= 1
  {
    if s == [] then [""]
    else
      var rest := Levels(s[1..]);
      if s[0] == '/' then [""] + rest else [[s[0]] + rest[0]] + rest[1..]
  }

  lemma {:induction false} LevelsNoSlash(a: string)
    requires '/' !in a
    ensures Levels(a) == [a]
  {
    if a != [] {
      LevelsNoSlash(a[1..]);
      assert [a[0]] + a[1..] == a;
    }
  }

  lemma {:induction false} LevelsSlash(a: string, b: string)
    requires '/' !in a
    ensures Levels(a + "/" + b) == [a] + Levels(b)
  {
    if a == [] {
      assert a + "/" + b == ['/'] + b;
      assert (['/'] + b)[1..] == b;
    } else {
      LevelsSlash(a[1..], b);
      assert (a + "/" + b)[1..] == a[1..] + "/" + b;
      assert [a[0]] + a[1..] == a;
    }
  }

  /** The levels after the id: the sub-level, if the channel has one. */
  function Tail(ch: Channel): seq<string>
  {
    if Sub(ch) == "" then [] else [Sub(ch)]
  }

  /** No fixed level of a template contains '/'. */
  lemma PlainLevels(ch: Channel)
    ensures '/' !in Word(ch) && '/' !in Sub(ch)
  {
    match ch {
      case Telemetry =>
      case ControlHeater =>
      case ControlMist =>
      case ControlFeed =>
      case ConfigIn =>
      case ConfigOut =>
      case Status =>
      case Command =>
    }
  }

  /** A '/'-free id sits alone in the third level of every topic. */
  lemma TopicLevels(id: string, ch: Channel)
    requires '/' !in id
    ensures Levels(Topic(id, ch)) == ["farm", Word(ch), id] + Tail(ch)
  {
    var rest := if Sub(ch) == "" then id else id + "/" + Sub(ch);
    PlainLevels(ch);
    LevelsSlash("farm", Word(ch) + "/" + rest);
    LevelsSlash(Word(ch), rest);
    if Sub(ch) == "" {
      LevelsNoSlash(id);
    } else {
      LevelsSub(id, Sub(ch));
    }
  }

  lemma LevelsSub(id: string, y: string)
    requires '/' !in id && '/' !in y
    ensures Levels(id + "/" + y) == [id, y]
  {
    LevelsSlash(id, y);
    LevelsNoSlash(y);
  }

  /**
   * For ids without '/', a topic determines both the id and the channel:
   * topics of different devices never collide.
   */
  lemma TopicsInjective(id1: string, a: Channel, id2: string, b: Channel)
    requires '/' !in id1 && '/' !in id2
    requires Topic(id1, a) == Topic(id2, b)
    ensures id1 == id2 && a == b
  {
    TopicLevels(id1, a);
    TopicLevels(id2, b);
    var l1 := ["farm", Word(a), id1] + Tail(a);
    var l2 := ["farm", Word(b), id2] + Tail(b);
    assert l1 == l2;
    assert l1[2] == id1 && l2[2] == id2;
    assert Word(a) == Word(b) && Tail(a) == Tail(b) by {
      assert l1[1] == Word(a) && l2[1] == Word(b);
      assert Tail(a) == l1[3..] && Tail(b) == l2[3..];
    }
  }
}
