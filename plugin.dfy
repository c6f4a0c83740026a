/**
 * The plugin object of Main.java: the set of players whose teleport is being
 * processed, the configuration fields that loadConfig validates, and the
 * decision the teleport listener takes. The listener itself lives in module
 * Intake, because it starts a TransmissionProcess, which in turn releases
 * the player through this class.
 */
module PluginMain {

  /** A player's UUID. */
  type Uuid = nat

  /** The animation types loadConfig accepts. */
  const AnimationTypes: set<string> := {"TITLE", "GTA", "BOTH"}

  /** `String.toUpperCase` on the ASCII letters. */
  function UpperChar(c: char): char
  {
    if 'a' <= c <= 'z' then (c as int - 32) as char else c
  }

  function ToUpper(s: string): (u: string)
    ensures |u| == |s|
    ensures forall i :: 0 <= i < |s| ==> u[i] == UpperChar(s[i])
  {
    if s == [] then [] else [UpperChar(s[0])] + ToUpper(s[1..])
  }

  /** Upper-casing twice is upper-casing once. */
  lemma ToUpperIdempotent(s: string)
    ensures ToUpper(ToUpper(s)) == ToUpper(s)
  {
    var u := ToUpper(s);
    assert forall i :: 0 <= i < |u| ==> UpperChar(u[i]) == u[i];
  }

  /** The validated animation type: upper-cased, and GTA when it is not one of the three. */
  function ValidAnimationType(raw: string): (t: string)
    ensures t in AnimationTypes
    ensures ToUpper(raw) in AnimationTypes ==> t == ToUpper(raw)
    ensures ToUpper(raw) !in AnimationTypes ==> t == "GTA"
  {
    var u := ToUpper(raw);
    if u != "TITLE" && u != "GTA" && u != "BOTH" then "GTA" else u
  }

  /** The validated title fade duration: at least one tick, 15 when the configured one is not. */
  function ValidFadeDuration(configured: int): (d: int)
    ensures d >= 1
    ensures configured >= 1 ==> d == configured
    ensures configured < 1 ==> d == 15
  {
    if configured < 1 then 15 else configured
  }

  /** The validated title fade-in delay: never negative, 5 when the configured one is. */
  function ValidFadeInDelay(configured: int): (d: int)
    ensures d >= 0
    ensures configured >= 0 ==> d == configured
    ensures configured < 0 ==> d == 5
  {
    if configured < 0 then 5 else configured
  }

  /**
   * Validation is idempotent and does not depend on letter case: loading an
   * already loaded configuration changes nothing.
   */
  lemma ValidationIdempotent(rawType: string, fade: int, delay: int)
    ensures ValidAnimationType(ValidAnimationType(rawType)) == ValidAnimationType(rawType)
    ensures ValidAnimationType(ToUpper(rawType)) == ValidAnimationType(rawType)
    ensures ValidFadeDuration(ValidFadeDuration(fade)) == ValidFadeDuration(fade)
    ensures ValidFadeInDelay(ValidFadeInDelay(delay)) == ValidFadeInDelay(delay)
  {
    ToUpperIdempotent(rawType);
    UpperTypesFixed(ValidAnimationType(rawType));
  }

  /** A string without lower-case letters is its own upper case. */
  lemma UpperFixed(s: string)
    requires forall i :: 0 <= i < |s| ==> !('a' <= s[i] <= 'z')
    ensures ToUpper(s) == s
  {
  }

  /** The three animation type names are already upper case. */
  lemma UpperTypesFixed(t: string)
    requires t in AnimationTypes
    ensures ToUpper(t) == t
  {
    if t == "TITLE" {
      TitleUpper();
    } else if t == "GTA" {
      GtaUpper();
    } else {
      BothUpper();
    }
  }

  lemma TitleUpper()
    ensures ToUpper("TITLE") == "TITLE"
  {
    UpperFixed("TITLE");
  }

  lemma GtaUpper()
    ensures ToUpper("GTA") == "GTA"
  {
    UpperFixed("GTA");
  }

  lemma BothUpper()
    ensures ToUpper("BOTH") == "BOTH"
  {
    UpperFixed("BOTH");
  }

  /** Lower- or mixed-case spellings of a valid type are accepted; anything else falls back to GTA. */
  lemma AnimationTypeExamples()
    ensures ValidAnimationType("both") == "BOTH"
    ensures ValidAnimationType("Title") == "TITLE"
    ensures ValidAnimationType("CAMERA") == "GTA"
    ensures ValidAnimationType("") == "GTA"
  {
    assert ToUpper("both") == "BOTH";
    assert ToUpper("Title") == "TITLE";
    assert ToUpper("CAMERA") == "CAMERA";
  }

  /** `s.contains("BOTH")`: whether "BOTH" occurs in s. */
  predicate ContainsBoth(s: string)
  {
    |s| >= 4 && (s[..4] == "BOTH" || ContainsBoth(s[1..]))
  }

  /**
   * As start() decides it: the title fade is used when the raw configured
   * animation type contains "BOTH", whatever loadConfig made of it.
   */
  predicate UsesTitleAsWritten(rawType: string)
  {
    ContainsBoth(rawType)
  }

  /** As intended: the title fade is used when the animation type loadConfig validated is BOTH. */
  predicate UsesTitle(rawType: string)
  {
    ValidAnimationType(rawType) == "BOTH"
  }

  /** The intended decision is exactly the case-insensitive spellings of BOTH. */
  lemma UsesTitleExactlyBoth(rawType: string)
    ensures UsesTitle(rawType) <==> ToUpper(rawType) == "BOTH"
    ensures UsesTitle(ToUpper(rawType)) == UsesTitle(rawType)
  {
    ToUpperIdempotent(rawType);
  }

  /**
   * The decision as written disagrees with the validated type both ways:
   * "both" is loaded as BOTH but gets no title; "BOTH " (with a trailing
   * space) falls back to GTA but gets one.
   */
  lemma UsesTitleAsWrittenDisagrees()
    ensures ValidAnimationType("both") == "BOTH" && !UsesTitleAsWritten("both") && UsesTitle("both")
    ensures ValidAnimationType("BOTH ") == "GTA" && UsesTitleAsWritten("BOTH ") && !UsesTitle("BOTH ")
  {
    assert ToUpper("both") == "BOTH";
    assert ToUpper("BOTH ") == "BOTH ";
    assert "BOTH "[..4] == "BOTH";
    assert "both"[..4] != "BOTH" && |"both"[1..]| < 4;
  }

  /** The configuration values loadConfig reads, before validation. */
  datatype RawConfig = RawConfig(
    fadeDuration: int, fadeInDelay: int, playSound: bool,
    animationType: string, debug: bool, teleportMessage: string)

  /** `PlayerTeleportEvent.TeleportCause`; the causes other than these two are handled alike. */
  datatype TeleportCause = EnderPearl | ChorusFruit | OtherCause

  /** What onPlayerTeleport does with a teleport event. */
  datatype Decision =
    | AlreadyProcessing  // ignored: this player's teleport is already being processed
    | IgnoredCause       // ignored: ender pearl or chorus fruit
    | InstantCrossWorld  // other world: plain teleport, entry added and removed again
    | Animated           // same world: event cancelled, animation started

  /** The branches of onPlayerTeleport, in the order the listener tests them. */
  function Decide(processing: set<Uuid>, player: Uuid, cause: TeleportCause, crossWorld: bool): (d: Decision)
    ensures d == AlreadyProcessing <==> player in processing
    ensures d == IgnoredCause <==> player !in processing && (cause == EnderPearl || cause == ChorusFruit)
    ensures d == Animated <==> player !in processing && !(cause == EnderPearl || cause == ChorusFruit) && !crossWorld
  {
    if player in processing then AlreadyProcessing
    else if cause == EnderPearl || cause == ChorusFruit then IgnoredCause
    else if crossWorld then InstantCrossWorld
    else Animated
  }

  /**
   * The processing set after the listener's own set operations: the ignored
   * branches leave it alone, a cross-world teleport adds and removes the
   * player, an animated one adds the player and leaves the release to the
   * sequence, and an exception while starting removes the player again.
   */
  function ProcessingAfter(processing: set<Uuid>, player: Uuid, d: Decision, startThrew: bool): (after: set<Uuid>)
    ensures forall q :: q != player ==> (q in after <==> q in processing)
    ensures player in after <==> (d == Animated && !startThrew) || (player in processing && (d == AlreadyProcessing || d == IgnoredCause))
  {
    match d
    case AlreadyProcessing => processing
    case IgnoredCause => processing
    case InstantCrossWorld => (processing + {player}) - {player}
    case Animated => if startThrew then (processing + {player}) - {player} else processing + {player}
  }

  /**
   * Only a same-world request is taken over by the animation, and afterwards
   * the player is marked as processing, so the listener ignores every further
   * teleport of that player (among them the sequence's own real teleport)
   * until the entry is released: acquiring twice in a row fails the second time.
   * The catch path is the exception: it releases the player before its direct
   * teleport, so a same-world request arriving then is animated again.
   */
  lemma DecisionOutcomes(processing: set<Uuid>, player: Uuid, cause: TeleportCause,
                                            crossWorld: bool, startThrew: bool, again: TeleportCause, crossAgain: bool)
    ensures var d := Decide(processing, player, cause, crossWorld);
      && (d == Animated <==> player !in processing && cause == OtherCause && !crossWorld)
      && (d != Animated ==> ProcessingAfter(processing, player, d, startThrew) == processing)
      && (d == Animated && !startThrew ==>
            ProcessingAfter(processing, player, d, startThrew) == processing + {player}
            && Decide(ProcessingAfter(processing, player, d, startThrew), player, again, crossAgain) == AlreadyProcessing)
      && (d == Animated && startThrew ==>
            ProcessingAfter(processing, player, d, startThrew) == processing
            && Decide(ProcessingAfter(processing, player, d, startThrew), player, OtherCause, false) == Animated)
      && (forall q :: q != player ==> (q in ProcessingAfter(processing, player, d, startThrew) <==> q in processing))
  {
    var d := Decide(processing, player, cause, crossWorld);
    if d != AlreadyProcessing {
      assert player !in processing;
      assert (processing + {player}) - {player} == processing;
    }
  }

  /** The state of class Main that the model keeps. */
  class Plugin {
    var processing: set<Uuid>
    var fadeDuration: int
    var fadeInDelay: int
    var playSound: bool
    var animationType: string
    var debug: bool
    var teleportMessage: string

    constructor ()
      ensures processing == {}
    {
      processing := {};
      fadeDuration, fadeInDelay, playSound := 0, 0, false;
      animationType, debug, teleportMessage := "", false, "";
    }

    /** Reads the configuration into the fields, then overwrites each invalid value with its default. */
    method LoadConfig(raw: RawConfig)
      modifies this`fadeDuration, this`fadeInDelay, this`playSound, this`animationType,
               this`debug, this`teleportMessage
      ensures fadeDuration == ValidFadeDuration(raw.fadeDuration)
      ensures fadeInDelay == ValidFadeInDelay(raw.fadeInDelay)
      ensures animationType == ValidAnimationType(raw.animationType)
      ensures playSound == raw.playSound && debug == raw.debug && teleportMessage == raw.teleportMessage
    {
      fadeDuration := raw.fadeDuration;
      fadeInDelay := raw.fadeInDelay;
      playSound := raw.playSound;
      animationType := ToUpper(raw.animationType);
      debug := raw.debug;
      teleportMessage := raw.teleportMessage;
      if animationType != "TITLE" && animationType != "GTA" && animationType != "BOTH" {
        animationType := "GTA";
      }
      if fadeDuration < 1 {
        fadeDuration := 15;
      }
      if fadeInDelay < 0 {
        fadeInDelay := 5;
      }
    }

    predicate IsProcessingTeleport(player: Uuid)
      reads this
    {
      player in processing
    }

    method AddProcessingPlayer(player: Uuid)
      modifies this`processing
      ensures processing == old(processing) + {player}
      ensures IsProcessingTeleport(player)
    {
      processing := processing + {player};
    }

    /** Removes the player if present; removing an absent player changes nothing. */
    method RemoveProcessingPlayer(player: Uuid)
      modifies this`processing
      ensures processing == old(processing) - {player}
      ensures !IsProcessingTeleport(player)
      ensures player !in old(processing) ==> processing == old(processing)
    {
      if player in processing {
        processing := processing - {player};
      }
    }

    /** onDisable: forgets every player still being processed. */
    method OnDisable()
      modifies this`processing
      ensures processing == {}
      ensures forall p :: !IsProcessingTeleport(p)
    {
      processing := {};
    }
  }
}
