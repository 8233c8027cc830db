/**
 * The component-contract logic of the single-line text input: when it asks
 * to be drawn again, the change it reports to its owner, the bindings it
 * registers, and the predicate that turns a typed character into an
 * insertion. The rope and cursor arithmetic it delegates to are taken as
 * given operations.
 */
module InputComponent {
  import opened Component
  import opened KeyInput
  import opened Bindings
  import opened Template

  /** `text::Cursor`; its definition is not part of this model. */
  type Cursor(==)

  /** `Style`; passed through unchanged. */
  type Style(==)

  /** The text content, a `ropey::Rope`, seen as its characters. */
  type Rope = seq<char>

  datatype InputStyle = InputStyle(content: Style, cursor: Style)

  /** A `Callback<InputChange>`, compared by identity. */
  datatype Callback = Callback(id: nat)

  datatype InputProperties = InputProperties(
    style: InputStyle,
    content: Rope,
    cursor: Cursor,
    onChange: Option<Callback>,
    focused: bool)

  /** What the input reports to its owner: a new content, if edited, and the new cursor. */
  datatype InputChange = InputChange(content: Option<Rope>, cursor: Cursor)

  datatype Message =
    | CursorLeft
    | CursorRight
    | InsertChar(c: char)
    | DeleteBackward
    | DeleteForward
    | StartOfLine
    | EndOfLine

  /**
   * The cursor operations of `text::cursor` the input calls. Each moves a
   * cursor within a content or edits a content at a cursor, giving back the
   * new cursor and the new content.
   */
  datatype TextOps = TextOps(
    moveLeft: (Cursor, Rope) -> Cursor,
    moveRight: (Cursor, Rope) -> Cursor,
    moveToStartOfLine: (Cursor, Rope) -> Cursor,
    moveToEndOfBuffer: (Cursor, Rope) -> Cursor,
    insertChar: (Cursor, Rope, char) -> (Cursor, Rope),
    backspace: (Cursor, Rope) -> (Cursor, Rope),
    delete: (Cursor, Rope) -> (Cursor, Rope),
    ensureTrailingNewline: Rope -> Rope)

  const INPUT_TYPE := TypeTag("zi::components::input::Input")
  const MESSAGE_TYPE := TypeTag("zi::components::input::Message")
  const PROPERTIES_TYPE := TypeTag("zi::components::input::InputProperties")

  predicate IsCursorMotion(m: Message) {
    m.CursorLeft? || m.CursorRight? || m.StartOfLine? || m.EndOfLine?
  }

  /**
   * The change `update` computes from the current properties: motions move
   * a copy of the cursor over the current content; edits work on a copy of
   * the content and report it.
   */
  function UpdateChange(p: InputProperties, m: Message, ops: TextOps): (r: InputChange)
    ensures r.content.None? <==> IsCursorMotion(m)
  {
    match m
    case CursorLeft => InputChange(None, ops.moveLeft(p.cursor, p.content))
    case CursorRight => InputChange(None, ops.moveRight(p.cursor, p.content))
    case StartOfLine => InputChange(None, ops.moveToStartOfLine(p.cursor, p.content))
    case EndOfLine => InputChange(None, ops.moveToEndOfBuffer(p.cursor, p.content))
    case InsertChar(c) =>
      var (cursor, content) := ops.insertChar(p.cursor, p.content, c);
      InputChange(Some(content), ops.moveRight(cursor, content))
    case DeleteBackward =>
      var (cursor, content) := ops.backspace(p.cursor, p.content);
      InputChange(Some(content), cursor)
    case DeleteForward =>
      var (cursor, content) := ops.delete(p.cursor, p.content);
      InputChange(Some(content), cursor)
  }

  /**
   * Editing messages report the content the edit produced from the current
   * one, and the cursor the edit (then, for an insertion, a move right)
   * produced; motions report the moved cursor only.
   */
  lemma UpdateChangeFromCurrent(p: InputProperties, m: Message, ops: TextOps)
    ensures m.InsertChar? ==>
      var e := ops.insertChar(p.cursor, p.content, m.c);
      UpdateChange(p, m, ops) == InputChange(Some(e.1), ops.moveRight(e.0, e.1))
    ensures m.DeleteBackward? ==>
      UpdateChange(p, m, ops) == InputChange(Some(ops.backspace(p.cursor, p.content).1), ops.backspace(p.cursor, p.content).0)
    ensures m.DeleteForward? ==>
      UpdateChange(p, m, ops) == InputChange(Some(ops.delete(p.cursor, p.content).1), ops.delete(p.cursor, p.content).0)
    ensures m.EndOfLine? ==> UpdateChange(p, m, ops).cursor == ops.moveToEndOfBuffer(p.cursor, p.content)
  {
  }

  /**
   * The reported change depends only on the current content and cursor:
   * style, callback and focus play no part.
   */
  lemma UpdateChangeDependsOnContentAndCursor(p: InputProperties, q: InputProperties, m: Message, ops: TextOps)
    requires p.content == q.content && p.cursor == q.cursor
    ensures UpdateChange(p, m, ops) == UpdateChange(q, m, ops)
  {
  }

  /**
   * The `insert-character` handler: a single key whose code is a character
   * other than newline, carriage return or tab inserts that character,
   * whatever modifiers are held; anything else yields no message.
   */
  function InsertCharacter(keys: seq<KeyEvent>): (r: Option<Message>)
    ensures r.Some? <==>
      |keys| == 1 && keys[0].code.Char? && keys[0].code.c != '\n' && keys[0].code.c != '\r' && keys[0].code.c != '\t'
    ensures r.Some? ==> r.value == InsertChar(keys[0].code.c)
  {
    if |keys| == 1 && keys[0].code.Char? then
      var c := keys[0].code.c;
      if c != '\n' && c != '\r' && c != '\t' then Some(InsertChar(c)) else None
    else None
  }

  /** The modifiers of the single key never matter to the handler. */
  lemma InsertCharacterIgnoresModifiers(code: KeyCode, m1: KeyModifiers, m2: KeyModifiers)
    ensures InsertCharacter([KeyEvent(code, m1)]) == InsertCharacter([KeyEvent(code, m2)])
  {
  }

  /**
   * The handler matches on the raw key, not through key equality: `a` with
   * SHIFT equals `A`, yet the two insert different characters; and given
   * Ctrl-b, which "left" binds, the handler returns the character `b`.
   * Whether the any-character rule lets Ctrl-b reach the handler is decided
   * by the binding table, which is not part of this model.
   */
  lemma InsertCharacterUsesRawKeys()
    ensures Eq(New(Char('a'), SHIFT), FromCode(Char('A')))
    ensures InsertCharacter([New(Char('a'), SHIFT)]) == Some(InsertChar('a'))
    ensures InsertCharacter([FromCode(Char('A'))]) == Some(InsertChar('A'))
    ensures InsertCharacter([New(Char('b'), CONTROL)]) == Some(InsertChar('b'))
  {
    ShiftedAEqualsUppercaseA();
  }

  /** The commands the input registers on an empty table. */
  const INPUT_COMMANDS: seq<NamedCommand<Message>> := [
    NamedCommand("left", [Chords([New(Char('b'), CONTROL)]), Chords([FromCode(Left)])], Emit(CursorLeft)),
    NamedCommand("right", [Chords([New(Char('f'), CONTROL)]), Chords([FromCode(Right)])], Emit(CursorRight)),
    NamedCommand("start-of-line", [Chords([New(Char('a'), CONTROL)]), Chords([FromCode(Home)])], Emit(StartOfLine)),
    NamedCommand("end-of-line", [Chords([New(Char('e'), CONTROL)]), Chords([FromCode(End)])], Emit(EndOfLine)),
    NamedCommand("delete-forward", [Chords([New(Char('d'), CONTROL)]), Chords([FromCode(Delete)])], Emit(DeleteForward)),
    NamedCommand("delete-backward", [Chords([FromCode(Backspace)])], Emit(DeleteBackward)),
    NamedCommand("insert-character", [AnyCharacter], FromKeys(InsertCharacter))
  ]

  /** The single keys of the input's literal rules, in registration order. */
  const INPUT_KEYS: seq<KeyEvent> := [
    New(Char('b'), CONTROL), FromCode(Left), New(Char('f'), CONTROL), FromCode(Right),
    New(Char('a'), CONTROL), FromCode(Home), New(Char('e'), CONTROL), FromCode(End),
    New(Char('d'), CONTROL), FromCode(Delete), FromCode(Backspace)]

  /** The literal rules of the last three commands are the last three keys. */
  lemma InputChordRulesTail()
    ensures ChordRules(INPUT_COMMANDS[4..]) == Singletons(INPUT_KEYS[8..])
  {
    var cs, keys := INPUT_COMMANDS, INPUT_KEYS;
    ChordRulesEnd(cs, keys);
    ChordRulesNoKey(cs, 6, keys, 11);
    ChordRulesOneKey(cs, 5, keys, 10);
    ChordRulesTwoKeys(cs, 4, keys, 8);
  }

  /** The literal rules of commands two to six are keys four to eleven. */
  lemma InputChordRulesMiddle()
    ensures ChordRules(INPUT_COMMANDS[2..]) == Singletons(INPUT_KEYS[4..])
  {
    var cs, keys := INPUT_COMMANDS, INPUT_KEYS;
    InputChordRulesTail();
    ChordRulesTwoKeys(cs, 3, keys, 6);
    ChordRulesTwoKeys(cs, 2, keys, 4);
  }

  lemma InputChordRules()
    ensures ChordRules(INPUT_COMMANDS) == Singletons(INPUT_KEYS)
  {
    var cs, keys := INPUT_COMMANDS, INPUT_KEYS;
    InputChordRulesMiddle();
    ChordRulesTwoKeys(cs, 1, keys, 2);
    ChordRulesTwoKeys(cs, 0, keys, 0);
    assert cs[0..] == cs && keys[0..] == keys;
  }

  lemma InputKeysNormalAndDistinct()
    ensures forall k :: 0 <= k < |INPUT_KEYS| ==> NormalizeCase(INPUT_KEYS[k]) == INPUT_KEYS[k]
    ensures forall i, j :: 0 <= i < j < |INPUT_KEYS| ==> INPUT_KEYS[i] != INPUT_KEYS[j]
  {
  }

  /**
   * The input's eleven literal rules are pairwise distinct under key
   * equality (the any-character rule is a predicate, not a literal).
   */
  lemma InputLiteralRulesDistinct()
    ensures LiteralRulesDistinct(INPUT_COMMANDS)
  {
    InputChordRules();
    InputKeysNormalAndDistinct();
    SingleKeysDistinct(INPUT_COMMANDS, INPUT_KEYS);
  }

  /**
   * What `bindings` does to a table: focus is always set from the
   * properties; the commands are registered only on an empty table.
   */
  function BindingsEffect(focused: bool, s: TableState<Message>): (r: TableState<Message>)
    ensures r.focus == focused
    ensures IsEmptyState(s) ==> r.commands == INPUT_COMMANDS
    ensures !IsEmptyState(s) ==> r.commands == s.commands
    ensures !IsEmptyState(r)
  {
    TableState(focused, if IsEmptyState(s) then INPUT_COMMANDS else s.commands)
  }

  /**
   * Repeated calls keep the rules registered first and take their focus
   * from the latest properties.
   */
  lemma BindingsLatestFocusWins(f1: bool, f2: bool, s: TableState<Message>)
    ensures BindingsEffect(f2, BindingsEffect(f1, s)) == BindingsEffect(f2, s)
  {
  }

  /** Registers `name` with two single-key rules, as `command(..).with(..).with(..)`. */
  method CommandWithTwo(table: BindingTable<Message>, name: string, handler: Handler<Message>,
                        first: KeyEvent, second: KeyEvent)
    modifies table`commands
    ensures table.commands == old(table.commands) + [NamedCommand(name, [Chords([first]), Chords([second])], handler)]
  {
    var index := table.Command(name, handler);
    table.With(index, [first]);
    assert [] + [Chords([first])] == [Chords([first])];
    table.With(index, [second]);
    assert table.commands[index] == NamedCommand(name, [Chords([first]), Chords([second])], handler);
    assert table.commands == old(table.commands) + [table.commands[index]];
  }

  class Input {
    var properties: InputProperties
    var frame: Rect

    /**
     * `Input::create`: the properties and frame are stored as given; the
     * trailing-newline fix is applied to a copy of the content that is then
     * dropped.
     */
    constructor (properties: InputProperties, frame: Rect, ops: TextOps)
      ensures this.properties == properties && this.frame == frame
    {
      var content := ops.ensureTrailingNewline(properties.content);
      this.properties := properties;
      this.frame := frame;
    }

    /**
     * `Input::change`: different properties replace the current ones and ask
     * for a render; equal ones leave the input alone.
     */
    method Change(properties: InputProperties) returns (r: ShouldRender)
      modifies this`properties
      ensures r == Yes <==> properties != old(this.properties)
      ensures this.properties == properties
    {
      if this.properties != properties {
        this.properties := properties;
        r := Yes;
      } else {
        r := No;
      }
    }

    /** The erased `change`: properties boxed at another type panic. */
    method ChangeDynamic(properties: Dynamic<InputProperties>) returns (r: Outcome<ShouldRender>)
      modifies this`properties
      ensures properties.tag == PROPERTIES_TYPE ==>
        && this.properties == properties.value
        && r == Done(if properties.value != old(this.properties) then Yes else No)
      ensures properties.tag != PROPERTIES_TYPE ==>
        r == Panic(PROPERTIES_MISMATCH) && this.properties == old(this.properties)
    {
      var p := Downcast(properties, PROPERTIES_TYPE, PROPERTIES_MISMATCH);
      match p
      case Done(v) =>
        var render := Change(v);
        r := Done(render);
      case Panic(e) =>
        r := Panic(e);
    }

    /** `Input::resize`: the new frame is stored and a render is always asked for. */
    method Resize(frame: Rect) returns (r: ShouldRender)
      modifies this`frame
      ensures this.frame == frame && r == Yes
    {
      this.frame := frame;
      r := Yes;
    }

    /**
     * `Input::update`: changes nothing in the input; the computed change is
     * handed to `on_change` when there is one (`emitted`), and a render is
     * always asked for.
     */
    method Update(message: Message, ops: TextOps) returns (r: ShouldRender, emitted: Option<InputChange>)
      ensures r == Yes
      ensures properties.onChange.None? ==> emitted == None
      ensures properties.onChange.Some? ==> emitted == Some(UpdateChange(properties, message, ops))
    {
      var cursor := properties.cursor;
      var contentChange: Option<Rope> := None;
      match message {
        case CursorLeft =>
          cursor := ops.moveLeft(cursor, properties.content);
        case CursorRight =>
          cursor := ops.moveRight(cursor, properties.content);
        case StartOfLine =>
          cursor := ops.moveToStartOfLine(cursor, properties.content);
        case EndOfLine =>
          cursor := ops.moveToEndOfBuffer(cursor, properties.content);
        case InsertChar(c) =>
          var edited := ops.insertChar(cursor, properties.content, c);
          var newContent := edited.1;
          cursor := edited.0;
          cursor := ops.moveRight(cursor, newContent);
          contentChange := Some(newContent);
        case DeleteBackward =>
          var edited := ops.backspace(cursor, properties.content);
          var newContent := edited.1;
          cursor := edited.0;
          contentChange := Some(newContent);
        case DeleteForward =>
          var edited := ops.delete(cursor, properties.content);
          var newContent := edited.1;
          cursor := edited.0;
          contentChange := Some(newContent);
      }
      if properties.onChange.Some? {
        emitted := Some(InputChange(contentChange, cursor));
      } else {
        emitted := None;
      }
      r := Yes;
    }

    /** The erased `update`: a message boxed at another type panics. */
    method UpdateDynamic(message: Dynamic<Message>, ops: TextOps)
      returns (r: Outcome<(ShouldRender, Option<InputChange>)>)
      ensures message.tag == MESSAGE_TYPE ==>
        r == Done((Yes, if properties.onChange.Some? then Some(UpdateChange(properties, message.value, ops)) else None))
      ensures message.tag != MESSAGE_TYPE ==> r == Panic(MESSAGE_MISMATCH)
    {
      var m := Downcast(message, MESSAGE_TYPE, MESSAGE_MISMATCH);
      match m
      case Done(v) =>
        var render, emitted := Update(v, ops);
        r := Done((render, emitted));
      case Panic(e) =>
        r := Panic(e);
    }

    /**
     * `Input::bindings`: focus follows the properties on every call; the
     * commands are registered only on an empty table.
     */
    method Bindings(table: BindingTable<Message>)
      modifies table
      ensures table.State() == BindingsEffect(properties.focused, old(table.State()))
    {
      table.SetFocus(properties.focused);
      var empty := table.IsEmpty();
      if !empty {
        return;
      }
      CommandWithTwo(table, "left", Emit(CursorLeft), New(Char('b'), CONTROL), FromCode(Left));
      assert table.commands == INPUT_COMMANDS[..1];
      CommandWithTwo(table, "right", Emit(CursorRight), New(Char('f'), CONTROL), FromCode(Right));
      assert table.commands == INPUT_COMMANDS[..2];
      CommandWithTwo(table, "start-of-line", Emit(StartOfLine), New(Char('a'), CONTROL), FromCode(Home));
      assert table.commands == INPUT_COMMANDS[..3];
      CommandWithTwo(table, "end-of-line", Emit(EndOfLine), New(Char('e'), CONTROL), FromCode(End));
      assert table.commands == INPUT_COMMANDS[..4];
      CommandWithTwo(table, "delete-forward", Emit(DeleteForward), New(Char('d'), CONTROL), FromCode(Delete));
      assert table.commands == INPUT_COMMANDS[..5];
      table.Add("delete-backward", Chords([FromCode(Backspace)]), Emit(DeleteBackward));
      assert table.commands == INPUT_COMMANDS[..6];
      table.Add("insert-character", AnyCharacter, FromKeys(InsertCharacter));
      assert table.commands == INPUT_COMMANDS[..7] == INPUT_COMMANDS;
    }

    /**
     * `Template::create` for an input definition: takes the properties out
     * once, builds the input from them and pairs it with a fresh, empty
     * table for the input type; a definition already used panics.
     */
    static method Create(def: ComponentDef<InputProperties>, id: ComponentId, frame: Rect, ops: TextOps)
      returns (r: Outcome<(Input, BindingTable<Message>)>)
      requires def.componentType == INPUT_TYPE && def.propertiesType == PROPERTIES_TYPE
      modifies def`properties
      ensures def.properties == None
      ensures old(def.properties).None? ==> r == Panic(PROPERTIES_TAKEN)
      ensures old(def.properties).Some? ==> r.Done?
      ensures r.Done? ==>
        && fresh(r.value.0) && fresh(r.value.1)
        && r.value.0.properties == old(def.properties).value && r.value.0.frame == frame
        && r.value.1.commands == [] && r.value.1.componentType == INPUT_TYPE
    {
      var properties := def.PropertiesUnwrap();
      match properties
      case Done(p) =>
        var input := new Input(p, frame, ops);
        var table := new BindingTable(def.componentType);
        r := Done((input, table));
      case Panic(e) =>
        r := Panic(e);
    }
  }

  /**
   * The reuse path of reconciliation: a new definition for a live input is
   * taken through `dynamic_properties` and handed to the erased `change`.
   * A definition of the input type boxes its properties at the input's
   * `Properties` type, so the downcast never panics and the input ends up
   * holding the new properties.
   */
  method ChangeFromDefinition(def: ComponentDef<InputProperties>, input: Input) returns (r: Outcome<ShouldRender>)
    requires def.componentType == INPUT_TYPE && def.propertiesType == PROPERTIES_TYPE
    requires def.properties.Some?
    modifies def`properties, input`properties
    ensures def.properties == None
    ensures input.properties == old(def.properties).value
    ensures r == Done(if old(def.properties).value != old(input.properties) then Yes else No)
  {
    var properties := def.DynamicProperties();
    r := input.ChangeDynamic(properties.value);
  }
}
