/**
 * The counter example component: a saturating `usize` counter that asks to
 * be drawn again exactly when its value changes, and that fills its binding
 * table once.
 */
module CounterExample {
  import opened Component
  import opened KeyInput
  import opened Bindings
  import opened Template

  datatype Message = Increment | Decrement

  /** The counter's properties: its initial value. */
  datatype Properties = Properties(initialCount: usize)

  const COUNTER_TYPE := TypeTag("counter::Counter")
  const MESSAGE_TYPE := TypeTag("counter::Message")
  const PROPERTIES_TYPE := TypeTag("counter::Properties")

  /** `usize::saturating_add`. */
  function SaturatingAdd(x: usize, y: usize): (r: usize)
    ensures x + y <= USIZE_MAX ==> r == x + y
    ensures x + y > USIZE_MAX ==> r == USIZE_MAX
  {
    if x + y <= USIZE_MAX then x + y else USIZE_MAX
  }

  /** `usize::saturating_sub`. */
  function SaturatingSub(x: usize, y: usize): (r: usize)
    ensures x >= y ==> r == x - y
    ensures x < y ==> r == 0
  {
    if x >= y then x - y else 0
  }

  /**
   * The value `update` computes for the counter from the current one: one
   * step in the message's direction, or none at all.
   */
  function NextCount(count: usize, message: Message): (r: usize)
    ensures message == Increment ==> count <= r <= count + 1
    ensures message == Decrement ==> count - 1 <= r <= count
  {
    match message
    case Increment => SaturatingAdd(count, 1)
    case Decrement => SaturatingSub(count, 1)
  }

  /**
   * The render decision `update` returns: Yes exactly when the counter is
   * not at the bound it moves toward.
   */
  function Render(count: usize, message: Message): (r: ShouldRender)
    ensures r == Yes <==>
      (message == Increment && count < USIZE_MAX) || (message == Decrement && count > 0)
  {
    if NextCount(count, message) != count then Yes else No
  }

  /**
   * The counter moves by one unless it sits at the bound in the direction
   * of the message, where it stays put.
   */
  lemma NextCountSaturates(count: usize, message: Message)
    ensures message == Increment && count < USIZE_MAX ==> NextCount(count, message) == count + 1
    ensures message == Increment && count == USIZE_MAX ==> NextCount(count, message) == count
    ensures message == Decrement && count > 0 ==> NextCount(count, message) == count - 1
    ensures message == Decrement && count == 0 ==> NextCount(count, message) == 0
  {
  }

  /** Decrement undoes Increment and Increment undoes Decrement, away from the bounds. */
  lemma IncrementDecrementInverse(count: usize)
    ensures count < USIZE_MAX ==> NextCount(NextCount(count, Increment), Decrement) == count
    ensures count > 0 ==> NextCount(NextCount(count, Decrement), Increment) == count
  {
  }

  /**
   * The counter's value and the render decisions after each of `messages`,
   * delivered in order starting from `count`.
   */
  function Run(count: usize, messages: seq<Message>): (r: (usize, seq<ShouldRender>))
    ensures |r.1| == |messages|
    decreases |messages|
  {
    if |messages| == 0 then (count, [])
    else
      var rest := Run(NextCount(count, messages[0]), messages[1..]);
      (rest.0, [Render(count, messages[0])] + rest.1)
  }

  function Repeat<T>(x: T, n: nat): (r: seq<T>)
    ensures |r| == n && forall i :: 0 <= i < n ==> r[i] == x
  {
    if n == 0 then [] else [x] + Repeat(x, n - 1)
  }

  /** Below the bound, `k` increments add `k` and each one asks for a render. */
  lemma {:induction false} RunIncrements(count: usize, k: nat)
    requires count + k <= USIZE_MAX
    ensures Run(count, Repeat(Increment, k)) == (count + k, Repeat(Yes, k))
    decreases k
  {
    if k > 0 {
      var ms := Repeat(Increment, k);
      assert ms[1..] == Repeat(Increment, k - 1);
      RunIncrements(count + 1, k - 1);
      assert Repeat(Yes, k) == [Yes] + Repeat(Yes, k - 1);
    }
  }

  /** At zero, any number of decrements keeps the counter at zero and never asks for a render. */
  lemma {:induction false} RunDecrementsAtZero(k: nat)
    ensures Run(0, Repeat(Decrement, k)) == (0, Repeat(No, k))
  {
    if k > 0 {
      var ms := Repeat(Decrement, k);
      assert ms[1..] == Repeat(Decrement, k - 1);
      RunDecrementsAtZero(k - 1);
      assert Repeat(No, k) == [No] + Repeat(No, k - 1);
    }
  }

  /**
   * Over any run, the number of renders asked for bounds how far the
   * counter can have moved, in either direction.
   */
  lemma {:induction false} RunMovesAtMostOnePerRender(count: usize, messages: seq<Message>)
    ensures var r := Run(count, messages);
      -(CountYes(r.1) as int) <= r.0 - count <= CountYes(r.1)
    decreases |messages|
  {
    if |messages| > 0 {
      RunMovesAtMostOnePerRender(NextCount(count, messages[0]), messages[1..]);
      var rest := Run(NextCount(count, messages[0]), messages[1..]);
      assert Run(count, messages).1 == [Render(count, messages[0])] + rest.1;
      CountYesCons(Render(count, messages[0]), rest.1);
    }
  }

  function CountYes(s: seq<ShouldRender>): (r: nat)
    ensures r <= |s|
  {
    if |s| == 0 then 0 else (if s[0] == Yes then 1 else 0) + CountYes(s[1..])
  }

  lemma CountYesCons(x: ShouldRender, s: seq<ShouldRender>)
    ensures CountYes([x] + s) == (if x == Yes then 1 else 0) + CountYes(s)
  {
    assert ([x] + s)[1..] == s;
  }

  /** From zero, three increments reach three with a render each; a decrement at zero does nothing. */
  lemma CounterScenario()
    ensures Run(0, [Increment, Increment, Increment]) == (3, [Yes, Yes, Yes])
    ensures Run(0, [Decrement]) == (0, [No])
  {
    RunIncrements(0, 3);
    assert Repeat(Increment, 3) == [Increment, Increment, Increment];
    assert Repeat(Yes, 3) == [Yes, Yes, Yes];
    RunDecrementsAtZero(1);
    assert Repeat(Decrement, 1) == [Decrement];
    assert Repeat(No, 1) == [No];
  }

  // ---------------------------------------------------------------------
  // Bindings

  /**
   * The commands the counter registers: increment on `+` or `=`, decrement
   * on `-`, exit on Ctrl-c or Esc.
   */
  const COUNTER_COMMANDS: seq<NamedCommand<Message>> := [
    NamedCommand("increment", [Chords([FromCode(Char('+'))]), Chords([FromCode(Char('='))])], Emit(Increment)),
    NamedCommand("decrement", [Chords([FromCode(Char('-'))])], Emit(Decrement)),
    NamedCommand("exit", [Chords([New(Char('c'), CONTROL)]), Chords([FromCode(Esc)])], Exit)
  ]

  /**
   * What `bindings` does to a table: a table that already holds commands is
   * left alone, focus included; an empty one gains focus and the counter's
   * commands.
   */
  function BindingsEffect(s: TableState<Message>): (r: TableState<Message>)
    ensures !IsEmptyState(s) ==> r == s
    ensures IsEmptyState(s) ==> r.focus && r.commands == COUNTER_COMMANDS
    ensures !IsEmptyState(r)
  {
    if !IsEmptyState(s) then s else TableState(true, COUNTER_COMMANDS)
  }

  /** Populating the bindings a second time changes nothing. */
  lemma BindingsIdempotent(s: TableState<Message>)
    ensures BindingsEffect(BindingsEffect(s)) == BindingsEffect(s)
  {
  }

  /**
   * Five pairs of keys stay apart under key-event equality: `+`, `=` and
   * `-` pairwise, Ctrl-c and plain `c`, and Ctrl-c and Ctrl-C.
   */
  lemma CounterKeysDistinct()
    ensures !Eq(FromCode(Char('+')), FromCode(Char('=')))
    ensures !Eq(FromCode(Char('+')), FromCode(Char('-')))
    ensures !Eq(FromCode(Char('=')), FromCode(Char('-')))
    ensures !Eq(New(Char('c'), CONTROL), FromCode(Char('c')))
    ensures !Eq(New(Char('c'), CONTROL), New(Char('C'), CONTROL))
  {
    assert NormalizeCase(New(Char('c'), CONTROL)).modifiers == CONTROL;
    assert NormalizeCase(New(Char('C'), CONTROL)).modifiers == CONTROL | SHIFT;
  }

  /** The counter's literal rules are pairwise distinct under key equality. */
  lemma CounterLiteralRulesDistinct()
    ensures LiteralRulesDistinct(COUNTER_COMMANDS)
  {
    CounterChordRules();
    SingleKeysDistinct(COUNTER_COMMANDS, COUNTER_KEYS);
  }

  /** The single keys of the counter's literal rules, in registration order. */
  const COUNTER_KEYS: seq<KeyEvent> :=
    [FromCode(Char('+')), FromCode(Char('=')), FromCode(Char('-')), New(Char('c'), CONTROL), FromCode(Esc)]

  lemma CounterChordRules()
    ensures ChordRules(COUNTER_COMMANDS) == Singletons(COUNTER_KEYS)
  {
    var cs, keys := COUNTER_COMMANDS, COUNTER_KEYS;
    ChordRulesEnd(cs, keys);
    ChordRulesTwoKeys(cs, 2, keys, 3);
    ChordRulesOneKey(cs, 1, keys, 2);
    ChordRulesTwoKeys(cs, 0, keys, 0);
    assert cs[0..] == cs && keys[0..] == keys;
  }

  // ---------------------------------------------------------------------
  // The component

  class Counter {
    var count: usize

    /** `Counter::create`: the counter starts at the initial count. */
    constructor (properties: Properties, frame: Rect)
      ensures count == properties.initialCount
    {
      count := properties.initialCount;
    }

    /**
     * `Counter::update`: moves the counter one step, saturating at the
     * bounds, writes it only when it changed, and asks for a render exactly
     * then.
     */
    method Update(message: Message) returns (r: ShouldRender)
      modifies this`count
      ensures count == NextCount(old(count), message)
      ensures r == Render(old(count), message)
      ensures r == Yes <==> count != old(count)
    {
      var newCount := match message
        case Increment => SaturatingAdd(count, 1)
        case Decrement => SaturatingSub(count, 1);
      if newCount != count {
        count := newCount;
        r := Yes;
      } else {
        r := No;
      }
    }

    /**
     * The erased `update`: a message boxed at the counter's `Message` type
     * is applied; any other payload panics and leaves the counter alone.
     */
    method UpdateDynamic(message: Dynamic<Message>) returns (r: Outcome<ShouldRender>)
      modifies this`count
      ensures message.tag == MESSAGE_TYPE ==>
        r == Done(Render(old(count), message.value)) && count == NextCount(old(count), message.value)
      ensures message.tag != MESSAGE_TYPE ==> r == Panic(MESSAGE_MISMATCH) && count == old(count)
    {
      var m := Downcast(message, MESSAGE_TYPE, MESSAGE_MISMATCH);
      match m
      case Done(v) =>
        var render := Update(v);
        r := Done(render);
      case Panic(e) =>
        r := Panic(e);
    }

    /**
     * `Counter::bindings`: a table that already holds commands is left
     * alone; an empty one is focused and filled with the counter's commands.
     */
    method Bindings(table: BindingTable<Message>)
      modifies table
      ensures table.State() == BindingsEffect(old(table.State()))
    {
      var empty := table.IsEmpty();
      if !empty {
        return;
      }
      table.SetFocus(true);
      var increment := table.Command("increment", Emit(Increment));
      table.With(increment, [FromCode(Char('+'))]);
      assert [] + [Chords([FromCode(Char('+'))])] == [Chords([FromCode(Char('+'))])];
      table.With(increment, [FromCode(Char('='))]);
      assert table.commands[0] == COUNTER_COMMANDS[0];
      assert table.commands == COUNTER_COMMANDS[..1];
      table.Add("decrement", Chords([FromCode(Char('-'))]), Emit(Decrement));
      assert table.commands == COUNTER_COMMANDS[..2];
      var exit := table.Command("exit", Exit);
      table.With(exit, [New(Char('c'), CONTROL)]);
      assert [] + [Chords([New(Char('c'), CONTROL)])] == [Chords([New(Char('c'), CONTROL)])];
      table.With(exit, [FromCode(Esc)]);
      assert table.commands[2] == COUNTER_COMMANDS[2];
      assert table.commands == COUNTER_COMMANDS;
    }

    /**
     * `Template::create` for a counter definition: takes the properties out
     * once, builds the counter from them and pairs it with a fresh, empty
     * table for the counter type; a definition already used panics.
     */
    static method Create(def: ComponentDef<Properties>, id: ComponentId, frame: Rect)
      returns (r: Outcome<(Counter, BindingTable<Message>)>)
      requires def.componentType == COUNTER_TYPE && def.propertiesType == PROPERTIES_TYPE
      modifies def`properties
      ensures def.properties == None
      ensures old(def.properties).None? ==> r == Panic(PROPERTIES_TAKEN)
      ensures old(def.properties).Some? ==> r.Done?
      ensures r.Done? ==>
        && fresh(r.value.0) && fresh(r.value.1)
        && r.value.0.count == old(def.properties).value.initialCount
        && r.value.1.commands == [] && r.value.1.componentType == COUNTER_TYPE
    {
      var properties := def.PropertiesUnwrap();
      match properties
      case Done(p) =>
        var counter := new Counter(p, frame);
        var table := new BindingTable(def.componentType);
        r := Done((counter, table));
      case Panic(e) =>
        r := Panic(e);
    }
  }

  /** Binding the counter into a table twice leaves the table as the first call left it. */
  method BindTwice(counter: Counter, table: BindingTable<Message>)
    modifies table
    ensures table.State() == BindingsEffect(old(table.State()))
    ensures !IsEmptyState(table.State())
  {
    counter.Bindings(table);
    ghost var once := table.State();
    counter.Bindings(table);
    BindingsIdempotent(old(table.State()));
    assert table.State() == once;
  }
}
