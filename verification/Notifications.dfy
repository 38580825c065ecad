/**
 * The decorator chain of the notification system: a plain notification
 * wrapped in any number of time-stamp and signature decorators, and the
 * text each chain renders to.
 *
 * The time-stamp decorator reads the wall clock every time it renders.
 * The clock is a parameter here: `clock(k)` is the text of the k-th
 * reading, and `tick` is the number of the next reading to be taken.
 */
module Notifications {

  /** A notification: the plain text at the bottom, decorators around it. */
  datatype Notification =
    | Simple(text: string)
    | TimeStamp(inner: Notification)
    | Signature(inner: Notification)

  /** The successive readings of the wall clock, already formatted. */
  type Clock = nat -> string

  /** The text the signature decorator puts in front of its inner content. */
  const SignaturePrefix: string := "Sample signature "

  /** What separates a time stamp from the content it decorates. */
  const StampSeparator: string := " "

  /** The plain text at the bottom of a chain. */
  function Base(n: Notification): string
  {
    match n
    case Simple(text) => text
    case TimeStamp(inner) => Base(inner)
    case Signature(inner) => Base(inner)
  }

  /** How many clock readings one rendering of `n` takes. */
  function Stamps(n: Notification): nat
  {
    match n
    case Simple(_) => 0
    case TimeStamp(inner) => 1 + Stamps(inner)
    case Signature(inner) => Stamps(inner)
  }

  /**
   * The content of a notification, rendered with the clock readings
   * `clock(tick)`, `clock(tick + 1)`, ...: the outermost time stamp reads
   * the clock first, then asks its inner notification for its content.
   * The result is the prefixes of the decorators, the outermost first,
   * followed by the plain text, which therefore always ends the content.
   */
  function Render(n: Notification, clock: Clock, tick: nat): (r: string)
    ensures r == Prefixes(Layers(n), clock, tick) + Base(n)
  {
    match n
    case Simple(text) => text
    case TimeStamp(inner) => clock(tick) + StampSeparator + Render(inner, clock, tick + 1)
    case Signature(inner) => SignaturePrefix + Render(inner, clock, tick)
  }

  /**
   * A rendering depends only on the readings it takes: two clocks that
   * agree on readings `tick` to `tick + Stamps(n) - 1` give the same text.
   */
  lemma {:induction false} RenderReadsOnlyItsStamps(n: Notification, c1: Clock, c2: Clock, tick: nat)
    requires forall k :: tick <= k < tick + Stamps(n) ==> c1(k) == c2(k)
    ensures Render(n, c1, tick) == Render(n, c2, tick)
  {
    match n
    case Simple(_) =>
    case TimeStamp(inner) =>
      RenderReadsOnlyItsStamps(inner, c1, c2, tick + 1);
    case Signature(inner) =>
      RenderReadsOnlyItsStamps(inner, c1, c2, tick);
  }

  /**
   * A chain without a time stamp renders to the same text on every call:
   * neither the clock nor the moment of the call matters.
   */
  lemma {:induction false} RenderWithoutStampsIsStable(n: Notification, c1: Clock, t1: nat, c2: Clock, t2: nat)
    requires Stamps(n) == 0
    ensures Render(n, c1, t1) == Render(n, c2, t2)
  {
    match n
    case Simple(_) =>
    case Signature(inner) =>
      RenderWithoutStampsIsStable(inner, c1, t1, c2, t2);
  }

  /** The kinds of decorator. */
  datatype Layer = StampLayer | SignatureLayer

  /** Wraps `n` in one decorator of kind `layer`. */
  function Decorate(n: Notification, layer: Layer): (d: Notification)
    ensures !d.Simple? && d.inner == n
  {
    match layer
    case StampLayer => TimeStamp(n)
    case SignatureLayer => Signature(n)
  }

  /**
   * The chain whose decorators, from the outermost inwards, are `layers`,
   * around a plain notification with text `base`: the decorators were
   * applied in the reverse order of `layers`.
   */
  function Chain(layers: seq<Layer>, base: string): Notification
  {
    if layers == [] then Simple(base) else Decorate(Chain(layers[1..], base), layers[0])
  }

  /** The decorators of `n`, from the outermost inwards. */
  function Layers(n: Notification): seq<Layer>
  {
    match n
    case Simple(_) => []
    case TimeStamp(inner) => [StampLayer] + Layers(inner)
    case Signature(inner) => [SignatureLayer] + Layers(inner)
  }

  /** Every notification is the chain of its own layers around its own text. */
  lemma {:induction false} ChainOfLayers(n: Notification)
    ensures Chain(Layers(n), Base(n)) == n
  {
    match n
    case Simple(_) =>
    case TimeStamp(inner) =>
      ChainOfLayers(inner);
      assert Layers(n)[1..] == Layers(inner);
    case Signature(inner) =>
      ChainOfLayers(inner);
      assert Layers(n)[1..] == Layers(inner);
  }

  /** Building a chain loses nothing: its layers and its text can be read back. */
  lemma {:induction false} LayersOfChain(layers: seq<Layer>, base: string)
    ensures Layers(Chain(layers, base)) == layers
    ensures Base(Chain(layers, base)) == base
  {
    if layers != [] {
      LayersOfChain(layers[1..], base);
    }
  }

  /** How many clock readings the prefix of one layer takes. */
  function LayerStamps(layer: Layer): nat
  {
    if layer == StampLayer then 1 else 0
  }

  /** The text one layer puts in front of its inner content, given the reading it would take. */
  function LayerPrefix(layer: Layer, clock: Clock, tick: nat): string
  {
    match layer
    case StampLayer => clock(tick) + StampSeparator
    case SignatureLayer => SignaturePrefix
  }

  /**
   * The prefixes of `layers`, outermost first, each time-stamp layer
   * taking the next clock reading.
   */
  function Prefixes(layers: seq<Layer>, clock: Clock, tick: nat): string
  {
    if layers == [] then ""
    else LayerPrefix(layers[0], clock, tick) + Prefixes(layers[1..], clock, tick + LayerStamps(layers[0]))
  }

  /** One layer of decorator puts its prefix in front of the inner content. */
  lemma RenderDecorate(n: Notification, layer: Layer, clock: Clock, tick: nat)
    ensures Render(Decorate(n, layer), clock, tick)
            == LayerPrefix(layer, clock, tick) + Render(n, clock, tick + LayerStamps(layer))
  {
    match layer
    case StampLayer =>
      assert Render(TimeStamp(n), clock, tick) == clock(tick) + StampSeparator + Render(n, clock, tick + 1);
    case SignatureLayer =>
      assert Render(Signature(n), clock, tick) == SignaturePrefix + Render(n, clock, tick);
  }

  /**
   * Stacked decorators compose: a chain renders to the prefixes of its
   * layers, the outermost one first, followed by the plain text.
   */
  lemma RenderChain(layers: seq<Layer>, base: string, clock: Clock, tick: nat)
    ensures Render(Chain(layers, base), clock, tick) == Prefixes(layers, clock, tick) + base
  {
    LayersOfChain(layers, base);
  }

  /**
   * A notification wrapped first in a signature and then in a time stamp
   * renders to the reading, a space, the signature and the plain text.
   */
  lemma SignedThenStamped(text: string, clock: Clock, tick: nat)
    ensures Render(TimeStamp(Signature(Simple(text))), clock, tick)
            == clock(tick) + " Sample signature " + text
  {
    var t := clock(tick);
    calc {
      Render(TimeStamp(Signature(Simple(text))), clock, tick);
      t + StampSeparator + Render(Signature(Simple(text)), clock, tick + 1);
      t + StampSeparator + (SignaturePrefix + Render(Simple(text), clock, tick + 1));
      t + StampSeparator + (SignaturePrefix + text);
      { assert StampSeparator + SignaturePrefix == " Sample signature "; }
      t + " Sample signature " + text;
    }
  }

  /** Why a rendering of the decorator chain as written fails. */
  datatype RenderError = NullFormatter

  datatype Result<T> = Ok(value: T) | Err(error: RenderError)

  /**
   * The decorator chain as the source has it: the time-stamp decorator
   * formats the clock reading with a null formatter, which throws before
   * the inner notification is asked for its content. A chain renders if
   * and only if it holds no time stamp.
   */
  function RenderAsWritten(n: Notification): (r: Result<string>)
    ensures r.Ok? <==> Stamps(n) == 0
  {
    match n
    case Simple(text) => Ok(text)
    case TimeStamp(_) => Err(NullFormatter)
    case Signature(inner) =>
      match RenderAsWritten(inner)
      case Ok(s) => Ok(SignaturePrefix + s)
      case Err(e) => Err(e)
  }

  /**
   * Where the chain as written renders at all, it renders to what the
   * corrected `Render` gives, at any clock.
   */
  lemma {:induction false} RenderAsWrittenAgreesWithoutStamps(n: Notification, clock: Clock, tick: nat)
    ensures RenderAsWritten(n).Ok? ==> RenderAsWritten(n).value == Render(n, clock, tick)
  {
    match n
    case Simple(_) =>
    case TimeStamp(_) =>
    case Signature(inner) =>
      RenderAsWrittenAgreesWithoutStamps(inner, clock, tick);
  }

  /** The smallest input that shows it: one time stamp around a plain notification. */
  lemma StampedNotificationThrows(text: string)
    ensures RenderAsWritten(TimeStamp(Simple(text))) == Err(NullFormatter)
  {
  }
}
