/**
 * The part of a component's binding table that the components use: a
 * focus flag, an emptiness test, and registration of named commands with
 * their key rules. How a table resolves pending keys to a command is not
 * part of this model.
 */
module Bindings {
  import opened Component
  import opened KeyInput

  /** A match rule: a literal key sequence, or the any-character matcher. */
  datatype Rule = Chords(keys: seq<KeyEvent>) | AnyCharacter

  /**
   * What running a command does: produce a fixed message, ask the runtime
   * to exit (`link.exit()`), or compute an optional message from the
   * pressed keys.
   */
  datatype Handler<M> =
    | Emit(message: M)
    | Exit
    | FromKeys(handle: seq<KeyEvent> -> Option<M>)

  datatype NamedCommand<M> = NamedCommand(name: string, rules: seq<Rule>, handler: Handler<M>)

  /** The abstract value of a binding table. */
  datatype TableState<M> = TableState(focus: bool, commands: seq<NamedCommand<M>>)

  /** A table holding no command. */
  predicate IsEmptyState<M>(s: TableState<M>) {
    |s.commands| == 0
  }

  /** Two key sequences that match the same keys: equal length, pairwise equal events. */
  predicate SameChords(a: seq<KeyEvent>, b: seq<KeyEvent>) {
    |a| == |b| && forall i :: 0 <= i < |a| ==> Eq(a[i], b[i])
  }

  /** The key sequence of every literal rule, in registration order. */
  function ChordRules<M>(commands: seq<NamedCommand<M>>): (r: seq<seq<KeyEvent>>)
  {
    if |commands| == 0 then []
    else RuleChords(commands[0].rules) + ChordRules(commands[1..])
  }

  function RuleChords(rules: seq<Rule>): (r: seq<seq<KeyEvent>>)
  {
    if |rules| == 0 then []
    else (if rules[0].Chords? then [rules[0].keys] else []) + RuleChords(rules[1..])
  }

  /** Registering commands one after another lists their literal rules one after another. */
  lemma {:induction false} ChordRulesAppend<M>(a: seq<NamedCommand<M>>, b: seq<NamedCommand<M>>)
    ensures ChordRules(a + b) == ChordRules(a) + ChordRules(b)
    decreases |a|
  {
    if |a| == 0 {
      assert a + b == b;
    } else {
      assert (a + b)[0] == a[0];
      assert (a + b)[1..] == a[1..] + b;
      ChordRulesAppend(a[1..], b);
    }
  }

  /** The one-key sequences of `keys`, in order. */
  function Singletons(keys: seq<KeyEvent>): (r: seq<seq<KeyEvent>>)
    ensures |r| == |keys| && forall k :: 0 <= k < |keys| ==> r[k] == [keys[k]]
  {
    seq(|keys|, k requires 0 <= k < |keys| => [keys[k]])
  }

  /** A command with one or two single-key rules contributes those keys. */
  lemma RuleChordsOfKeys(first: KeyEvent, second: KeyEvent)
    ensures RuleChords([Chords([first]), Chords([second])]) == Singletons([first, second])
    ensures RuleChords([Chords([first])]) == Singletons([first])
    ensures RuleChords([AnyCharacter]) == []
  {
    assert [Chords([first]), Chords([second])][1..] == [Chords([second])];
    assert [Chords([second])][1..] == [];
    assert RuleChords([Chords([second])]) == [[second]];
    assert [Chords([first])][1..] == [];
    assert [AnyCharacter][1..] == [];
  }

  /**
   * The literal rules from command `i` on are the one-key sequences of
   * `keys[j..]` when command `i` contributes the next `n` keys and the
   * commands after it contribute the rest.
   */
  lemma ChordRulesFrom<M>(cs: seq<NamedCommand<M>>, i: nat, keys: seq<KeyEvent>, j: nat, n: nat)
    requires i < |cs| && j + n <= |keys|
    requires RuleChords(cs[i].rules) == Singletons(keys[j..j + n])
    requires ChordRules(cs[i + 1..]) == Singletons(keys[j + n..])
    ensures ChordRules(cs[i..]) == Singletons(keys[j..])
  {
    assert cs[i..] == [cs[i]] + cs[i + 1..];
    ChordRulesAppend([cs[i]], cs[i + 1..]);
    assert Singletons(keys[j..]) == Singletons(keys[j..j + n]) + Singletons(keys[j + n..]);
  }

  /** Past the last command there are no literal rules, and past the last key no keys. */
  lemma ChordRulesEnd<M>(cs: seq<NamedCommand<M>>, keys: seq<KeyEvent>)
    ensures ChordRules(cs[|cs|..]) == Singletons(keys[|keys|..])
  {
    assert cs[|cs|..] == [] && keys[|keys|..] == [];
  }

  /** `ChordRulesFrom` for a command bound to the two keys `keys[j]` and `keys[j + 1]`. */
  lemma ChordRulesTwoKeys<M>(cs: seq<NamedCommand<M>>, i: nat, keys: seq<KeyEvent>, j: nat)
    requires i < |cs| && j + 2 <= |keys|
    requires cs[i].rules == [Chords([keys[j]]), Chords([keys[j + 1]])]
    requires ChordRules(cs[i + 1..]) == Singletons(keys[j + 2..])
    ensures ChordRules(cs[i..]) == Singletons(keys[j..])
  {
    RuleChordsOfKeys(keys[j], keys[j + 1]);
    assert keys[j..j + 2] == [keys[j], keys[j + 1]];
    ChordRulesFrom(cs, i, keys, j, 2);
  }

  /** `ChordRulesFrom` for a command bound to the one key `keys[j]`. */
  lemma ChordRulesOneKey<M>(cs: seq<NamedCommand<M>>, i: nat, keys: seq<KeyEvent>, j: nat)
    requires i < |cs| && j + 1 <= |keys|
    requires cs[i].rules == [Chords([keys[j]])]
    requires ChordRules(cs[i + 1..]) == Singletons(keys[j + 1..])
    ensures ChordRules(cs[i..]) == Singletons(keys[j..])
  {
    RuleChordsOfKeys(keys[j], keys[j]);
    assert keys[j..j + 1] == [keys[j]];
    ChordRulesFrom(cs, i, keys, j, 1);
  }

  /** `ChordRulesFrom` for a command whose only rule is the any-character matcher. */
  lemma ChordRulesNoKey<M>(cs: seq<NamedCommand<M>>, i: nat, keys: seq<KeyEvent>, j: nat)
    requires i < |cs| && j <= |keys|
    requires cs[i].rules == [AnyCharacter]
    requires ChordRules(cs[i + 1..]) == Singletons(keys[j..])
    ensures ChordRules(cs[i..]) == Singletons(keys[j..])
  {
    assert [AnyCharacter][1..] == [];
    assert keys[j..j] == [];
    ChordRulesFrom(cs, i, keys, j, 0);
  }

  /**
   * A table whose literal rules are single keys, each already in normal
   * form and all different, has pairwise distinct literal rules.
   */
  lemma SingleKeysDistinct<M>(commands: seq<NamedCommand<M>>, keys: seq<KeyEvent>)
    requires ChordRules(commands) == Singletons(keys)
    requires forall k :: 0 <= k < |keys| ==> NormalizeCase(keys[k]) == keys[k]
    requires forall i, j :: 0 <= i < j < |keys| ==> keys[i] != keys[j]
    ensures LiteralRulesDistinct(commands)
  {
    var chords := ChordRules(commands);
    forall i, j | 0 <= i < j < |chords|
      ensures !SameChords(chords[i], chords[j])
    {
      assert chords[i][0] == keys[i] && chords[j][0] == keys[j];
    }
  }

  /**
   * No two literal rules of a table, within one command or across
   * commands, match the same key sequence. The any-character rule is a
   * predicate, not a key sequence, and is not compared; which keys it
   * matches is not part of this model.
   */
  predicate LiteralRulesDistinct<M>(commands: seq<NamedCommand<M>>) {
    var chords := ChordRules(commands);
    forall i, j :: 0 <= i < j < |chords| ==> !SameChords(chords[i], chords[j])
  }

  /**
   * `Bindings<C>` / `DynamicBindings`: the per-component command table,
   * built for the component type tagged `componentType`.
   */
  class BindingTable<M> {
    var focus: bool
    var commands: seq<NamedCommand<M>>
    const componentType: TypeTag

    function State(): (s: TableState<M>)
      reads this
      ensures s.focus == focus && s.commands == commands
    {
      TableState(focus, commands)
    }

    /** `DynamicBindings::new::<C>()`: a table with no command. */
    constructor (componentType: TypeTag)
      ensures this.componentType == componentType
      ensures commands == []
    {
      this.componentType := componentType;
      focus := false;
      commands := [];
    }

    /** `is_empty`. */
    method IsEmpty() returns (r: bool)
      ensures r <==> IsEmptyState(State())
    {
      r := |commands| == 0;
    }

    /** `set_focus`: the rules are left as they were. */
    method SetFocus(value: bool)
      modifies this`focus
      ensures focus == value
    {
      focus := value;
    }

    /**
     * `command(name, handler)`: registers a command with no rule yet and
     * gives back its position for the `with` calls that follow.
     */
    method Command(name: string, handler: Handler<M>) returns (index: nat)
      modifies this`commands
      ensures commands == old(commands) + [NamedCommand(name, [], handler)]
      ensures index == |old(commands)|
    {
      index := |commands|;
      commands := commands + [NamedCommand(name, [], handler)];
    }

    /** `.with(keys)` on the command at `index`: one more key sequence for it. */
    method With(index: nat, keys: seq<KeyEvent>)
      requires index < |commands|
      modifies this`commands
      ensures |commands| == |old(commands)|
      ensures commands[index] == old(commands[index]).(rules := old(commands[index]).rules + [Chords(keys)])
      ensures forall i :: 0 <= i < |commands| && i != index ==> commands[i] == old(commands[i])
    {
      var c := commands[index];
      commands := commands[index := c.(rules := c.rules + [Chords(keys)])];
    }

    /** `add(name, rule, handler)`: a command with exactly one rule. */
    method Add(name: string, rule: Rule, handler: Handler<M>)
      modifies this`commands
      ensures commands == old(commands) + [NamedCommand(name, [rule], handler)]
    {
      commands := commands + [NamedCommand(name, [rule], handler)];
    }
  }
}
