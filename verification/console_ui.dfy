/**
 * The terminal viewer's state machine (console_ui/src/app.rs and
 * console_ui/src/take_event.rs): a cursor over the neurons of a layer, the
 * screen and layer on show, and a buffer of typed `'+'`/`'-'` that Enter
 * pushes into the network as one bit vector.
 *
 * The terminal event is passed in instead of read; the network is shared
 * (`Arc<RwLock<Network>>`) and seen through its dimensions and its log of
 * pushed bit vectors.
 */
module ConsoleUi {
  import opened DataLayers

  datatype CurrentScreen = Neurons | AccumulatedWeights | DistanceWeights | RefractTimeouts

  datatype Layer = Layer1 | Layer2

  datatype KeyEventKind = Press | Repeat | Release

  /** The key codes `take_event` tells apart; `OtherKey` is every other one. */
  datatype KeyCode = Char(c: char) | Backspace | Enter | Esc | Tab | Up | Down | Left | Right | OtherKey

  /** A terminal event: a key event, or any other kind (mouse, resize, focus, paste). */
  datatype Event = Key(kind: KeyEventKind, code: KeyCode) | OtherEvent

  /** The fields of an `App` together with its network's log. */
  datatype AppState = AppState(
    buffer: string,
    currentScreen: CurrentScreen,
    layer: Layer,
    neuronX: nat,
    neuronY: nat,
    pushed: seq<seq<bool>>)

  /** The bit a buffer character stands for: `'0'`, `'.'` and `'-'` are off, anything else is on. */
  function CharBit(c: char): bool
  {
    !(c == '0' || c == '.' || c == '-')
  }

  /** The bit vector of a buffer: one bit per character, in order. */
  function BufferBits(buffer: string): (r: seq<bool>)
    ensures |r| == |buffer|
    ensures forall i :: 0 <= i < |buffer| ==> r[i] == CharBit(buffer[i])
  {
    if |buffer| == 0 then [] else BufferBits(buffer[..|buffer| - 1]) + [CharBit(buffer[|buffer| - 1])]
  }

  /** `left`. */
  function MovedLeft(s: AppState): AppState
  {
    s.(neuronX := if s.neuronX > 0 then s.neuronX - 1 else s.neuronX)
  }

  /** `right`, on a row `rowWidth` neurons wide. */
  function MovedRight(s: AppState, rowWidth: nat): AppState
    requires rowWidth >= 1
  {
    s.(neuronX := if s.neuronX < rowWidth - 1 then s.neuronX + 1 else s.neuronX)
  }

  /** `up`. */
  function MovedUp(s: AppState): AppState
  {
    s.(neuronY := if s.neuronY > 0 then s.neuronY - 1 else s.neuronY)
  }

  /** `down`, on a column `columnHeight` neurons high. */
  function MovedDown(s: AppState, columnHeight: nat): AppState
    requires columnHeight >= 1
  {
    s.(neuronY := if s.neuronY < columnHeight - 1 then s.neuronY + 1 else s.neuronY)
  }

  /** `tick_buffer`: the buffer's bits are pushed once and the buffer is emptied. */
  function Ticked(s: AppState): AppState
  {
    s.(buffer := [], pushed := s.pushed + [BufferBits(s.buffer)])
  }

  /** `Layer1` and `Layer2` swap. */
  function OtherLayer(layer: Layer): Layer
  {
    match layer
    case Layer1 => Layer2
    case Layer2 => Layer1
  }

  /**
   * The key events whose handling cannot underflow: `right` and `down`
   * compute `row_width - 1` and `column_height - 1` in `usize`.
   */
  predicate MovesSafely(event: Event, rowWidth: nat, columnHeight: nat)
  {
    event.Key? && event.kind != Release ==>
      (event.code == KeyCode.Right ==> rowWidth >= 1) && (event.code == KeyCode.Down ==> columnHeight >= 1)
  }

  /** `take_event` on a given event: the new state, and whether to quit. */
  function AfterEvent(s: AppState, rowWidth: nat, columnHeight: nat, event: Event): (AppState, bool)
    requires MovesSafely(event, rowWidth, columnHeight)
  {
    if event.OtherEvent? || event.kind == Release then (s, false)
    else
      match event.code
      case Char(c) =>
        if c == 'q' then (s, true)
        else if c == 'n' then (s.(currentScreen := Neurons), false)
        else if c == 'a' then (s.(currentScreen := AccumulatedWeights), false)
        else if c == 'd' then (s.(currentScreen := DistanceWeights), false)
        else if c == '+' || c == '1' then (s.(buffer := s.buffer + "+"), false)
        else if c == '.' || c == '0' || c == '-' then (s.(buffer := s.buffer + "-"), false)
        else (s, false)
      case Backspace =>
        (if |s.buffer| > 0 then s.(buffer := s.buffer[..|s.buffer| - 1]) else s, false)
      case Enter => (Ticked(s), false)
      case Esc => (s.(currentScreen := Neurons), false)
      case Tab => (s.(layer := OtherLayer(s.layer)), false)
      case Up => (MovedUp(s), false)
      case Down => (MovedDown(s, columnHeight), false)
      case Left => (MovedLeft(s), false)
      case Right => (MovedRight(s, rowWidth), false)
      case OtherKey => (s, false)
  }

  class App {
    var buffer: string
    var currentScreen: CurrentScreen
    var layer: Layer
    var neuronX: nat
    var neuronY: nat
    const network: Network

    function State(): AppState
      reads this, network
    {
      AppState(buffer, currentScreen, layer, neuronX, neuronY, network.pushed)
    }

    /** The cursor is on a neuron of the layer. */
    predicate CursorInside()
      reads this
    {
      neuronX < network.rowWidth && neuronY < network.columnHeight
    }

    /** `App::new`: empty buffer, the neurons screen, the first layer, the cursor at `(0, 0)`. */
    constructor(network: Network)
      ensures this.network == network
      ensures buffer == [] && currentScreen == Neurons && layer == Layer1
      ensures neuronX == 0 && neuronY == 0
    {
      buffer := [];
      currentScreen := Neurons;
      layer := Layer1;
      this.network := network;
      neuronX := 0;
      neuronY := 0;
    }

    /** `get_network`: the shared network itself. */
    function GetNetwork(): (n: Network)
      ensures n == network
    {
      network
    }

    /** `tick_buffer`: one bit per buffer character, pushed once; the buffer is emptied. */
    method TickBuffer()
      modifies this, network
      ensures State() == Ticked(old(State()))
    {
      var data := [];
      for i := 0 to |buffer|
        invariant data == BufferBits(buffer[..i])
      {
        assert buffer[..i + 1][..i] == buffer[..i];
        data := data + [CharBit(buffer[i])];
      }
      assert buffer[..|buffer|] == buffer;
      buffer := [];
      network.PushDataBinary(data);
    }

    method Left()
      modifies this
      ensures State() == MovedLeft(old(State()))
    {
      if neuronX > 0 {
        neuronX := neuronX - 1;
      }
    }

    method Right()
      requires network.rowWidth >= 1
      modifies this
      ensures State() == MovedRight(old(State()), network.rowWidth)
    {
      var (rowWidth, _) := network.GetLayerDimensions();
      if neuronX < rowWidth - 1 {
        neuronX := neuronX + 1;
      }
    }

    method Up()
      modifies this
      ensures State() == MovedUp(old(State()))
    {
      if neuronY > 0 {
        neuronY := neuronY - 1;
      }
    }

    method Down()
      requires network.columnHeight >= 1
      modifies this
      ensures State() == MovedDown(old(State()), network.columnHeight)
    {
      var (_, columnHeight) := network.GetLayerDimensions();
      if neuronY < columnHeight - 1 {
        neuronY := neuronY + 1;
      }
    }

    /** `take_event` on `event`: true exactly when the viewer should quit. */
    method TakeEvent(event: Event) returns (quit: bool)
      requires MovesSafely(event, network.rowWidth, network.columnHeight)
      modifies this, network
      ensures (State(), quit) == AfterEvent(old(State()), network.rowWidth, network.columnHeight, event)
    {
      if event.Key? {
        if event.kind == Release {
          return false;
        }
        match event.code {
          case Char(c) =>
            if c == 'q' {
              return true;
            } else if c == 'n' {
              currentScreen := Neurons;
            } else if c == 'a' {
              currentScreen := AccumulatedWeights;
            } else if c == 'd' {
              currentScreen := DistanceWeights;
            } else if c == '+' || c == '1' {
              buffer := buffer + "+";
            } else if c == '.' || c == '0' || c == '-' {
              buffer := buffer + "-";
            }
          case Backspace =>
            if |buffer| > 0 {
              buffer := buffer[..|buffer| - 1];
            }
          case Enter =>
            TickBuffer();
          case Esc =>
            currentScreen := Neurons;
          case Tab =>
            layer := OtherLayer(layer);
          case Up =>
            this.Up();
          case Down =>
            this.Down();
          case Left =>
            this.Left();
          case Right =>
            this.Right();
          case OtherKey =>
        }
      }
      return false;
    }
  }

  /** Only a pressed (or repeated) `'q'` quits. */
  lemma QuitsOnlyOnQ(s: AppState, rowWidth: nat, columnHeight: nat, event: Event)
    requires MovesSafely(event, rowWidth, columnHeight)
    ensures AfterEvent(s, rowWidth, columnHeight, event).1 <==>
      event.Key? && event.kind != Release && event.code == Char('q')
    ensures AfterEvent(s, rowWidth, columnHeight, event).1 ==> AfterEvent(s, rowWidth, columnHeight, event).0 == s
  {
  }

  /** A key release, a non-key event and an unlisted key change nothing. */
  lemma IgnoredEvents(s: AppState, rowWidth: nat, columnHeight: nat, event: Event)
    requires MovesSafely(event, rowWidth, columnHeight)
    requires
      || event.OtherEvent?
      || event.kind == Release
      || event.code == OtherKey
      || (event.code.Char? && event.code.c !in {'q', 'n', 'a', 'd', '+', '1', '.', '0', '-'})
    ensures AfterEvent(s, rowWidth, columnHeight, event) == (s, false)
  {
  }

  /** Tab twice brings the layer back and changes nothing else. */
  lemma TabTwice(s: AppState, rowWidth: nat, columnHeight: nat, kind: KeyEventKind)
    requires kind != Release
    ensures AfterEvent(AfterEvent(s, rowWidth, columnHeight, Key(kind, Tab)).0, rowWidth, columnHeight, Key(kind, Tab)).0 == s
    ensures AfterEvent(s, rowWidth, columnHeight, Key(kind, Tab)).0.layer != s.layer
  {
  }

  /** A cursor on the layer stays on the layer, whatever the event. */
  lemma CursorStaysInside(s: AppState, rowWidth: nat, columnHeight: nat, event: Event)
    requires MovesSafely(event, rowWidth, columnHeight)
    requires s.neuronX < rowWidth && s.neuronY < columnHeight
    ensures AfterEvent(s, rowWidth, columnHeight, event).0.neuronX < rowWidth
    ensures AfterEvent(s, rowWidth, columnHeight, event).0.neuronY < columnHeight
  {
  }

  /** Only the arrow keys move the cursor, and only by one step along their axis. */
  lemma ArrowsMoveOneStep(s: AppState, rowWidth: nat, columnHeight: nat, event: Event)
    requires MovesSafely(event, rowWidth, columnHeight)
    ensures var t := AfterEvent(s, rowWidth, columnHeight, event).0;
      && (t.neuronX != s.neuronX ==> event.code in {KeyCode.Left, KeyCode.Right} && (t.neuronX == s.neuronX + 1 || t.neuronX + 1 == s.neuronX))
      && (t.neuronY != s.neuronY ==> event.code in {KeyCode.Up, KeyCode.Down} && (t.neuronY == s.neuronY + 1 || t.neuronY + 1 == s.neuronY))
  {
  }

  /** A buffer of `'+'` and `'-'` only: what typing can put there. */
  predicate TypedBuffer(buffer: string)
  {
    forall i :: 0 <= i < |buffer| ==> buffer[i] == '+' || buffer[i] == '-'
  }

  /**
   * Typing keeps the buffer made of `'+'` and `'-'`, and the network log only
   * grows, by one vector on Enter: the buffer's bits, `'+'` on and `'-'` off.
   */
  lemma {:induction false} EventKeepsTypedBuffer(s: AppState, rowWidth: nat, columnHeight: nat, event: Event)
    requires MovesSafely(event, rowWidth, columnHeight)
    requires TypedBuffer(s.buffer)
    ensures TypedBuffer(AfterEvent(s, rowWidth, columnHeight, event).0.buffer)
    ensures var t := AfterEvent(s, rowWidth, columnHeight, event).0;
      t.pushed == s.pushed || (event.code == Enter && t.pushed == s.pushed + [BufferBits(s.buffer)] && t.buffer == [])
    ensures forall i :: 0 <= i < |s.buffer| ==> BufferBits(s.buffer)[i] == (s.buffer[i] == '+')
  {
    var t := AfterEvent(s, rowWidth, columnHeight, event).0;
    if event.Key? && event.kind != Release && event.code == Backspace && |s.buffer| > 0 {
      assert forall i :: 0 <= i < |t.buffer| ==> t.buffer[i] == s.buffer[i];
    }
  }

  /** Typed keys become bits: `'+'` and `'1'` give an on bit, `'.'`, `'0'` and `'-'` an off bit. */
  lemma {:induction false} KeysBecomeBits(s: AppState, rowWidth: nat, columnHeight: nat, kind: KeyEventKind, c: char)
    requires kind != Release
    requires c in {'+', '1', '.', '0', '-'}
    ensures MovesSafely(Key(kind, Char(c)), rowWidth, columnHeight)
    ensures BufferBits(AfterEvent(s, rowWidth, columnHeight, Key(kind, Char(c))).0.buffer) ==
      BufferBits(s.buffer) + [c == '+' || c == '1']
  {
    var t := AfterEvent(s, rowWidth, columnHeight, Key(kind, Char(c))).0;
    assert t.buffer[..|t.buffer| - 1] == s.buffer;
  }
}
