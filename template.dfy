/**
 * The erasure and identity layer: component identities used for
 * reconciliation, erased message and property payloads with their checked
 * downcast, and the one-shot component definition that carries a
 * component's properties into construction.
 */
module Template {
  import opened Component

  // ---------------------------------------------------------------------
  // Component identity

  /**
   * Identity of one live node of the component tree. `typeName` is kept
   * for diagnostics only and never takes part in identity.
   */
  datatype ComponentId = ComponentId(typeId: TypeTag, id: u64, typeName: string)

  /** `ComponentId::new::<T>(id)`, given `T`'s tag and type name. */
  function NewId(typeId: TypeTag, typeName: string, id: u64): (r: ComponentId)
    ensures r.typeId == typeId && r.id == id && r.typeName == typeName
  {
    ComponentId(typeId, id, typeName)
  }

  /**
   * `PartialEq for ComponentId`: two identities are equal exactly when they
   * agree as values once the diagnostic name is set aside.
   */
  function IdEq(a: ComponentId, b: ComponentId): (r: bool)
    ensures r <==> a.(typeName := b.typeName) == b
    ensures a == b ==> r
  {
    a.typeId == b.typeId && a.id == b.id
  }

  /** What `Hash for ComponentId` writes into a hasher. */
  datatype IdHashWord = TypeWord(typeId: TypeTag) | IdWord(id: u64)

  /** `Hash for ComponentId`: the type tag then the id are written. */
  function IdHash(a: ComponentId, state: seq<IdHashWord>): (r: seq<IdHashWord>)
    ensures |r| == |state| + 2 && r[..|state|] == state
  {
    state + [TypeWord(a.typeId), IdWord(a.id)]
  }

  /** Identities are equal exactly when their tags and ids are; the name is ignored. */
  lemma IdEqIgnoresTypeName(a: ComponentId, b: ComponentId)
    ensures IdEq(a, b) <==> a.typeId == b.typeId && a.id == b.id
    ensures IdEq(a, b) <==> IdEq(a.(typeName := b.typeName), b)
  {
  }

  lemma IdEqIsEquivalence(a: ComponentId, b: ComponentId, c: ComponentId)
    ensures IdEq(a, a)
    ensures IdEq(a, b) <==> IdEq(b, a)
    ensures IdEq(a, b) && IdEq(b, c) ==> IdEq(a, c)
  {
  }

  /** Hashing agrees with equality in both directions. */
  lemma IdHashAgreesWithEq(a: ComponentId, b: ComponentId, state: seq<IdHashWord>)
    ensures IdEq(a, b) <==> IdHash(a, state) == IdHash(b, state)
  {
    if IdHash(a, state) == IdHash(b, state) {
      assert IdHash(a, state)[|state|] == IdHash(b, state)[|state|];
      assert IdHash(a, state)[|state| + 1] == IdHash(b, state)[|state| + 1];
    }
  }

  // ---------------------------------------------------------------------
  // Erased payloads

  /**
   * `DynamicMessage` / `DynamicProperties`: a boxed value together with the
   * tag of the concrete type it was boxed at.
   */
  datatype Dynamic<T> = Dynamic(tag: TypeTag, value: T)

  const MESSAGE_MISMATCH := "Incorrect `Message` type when downcasting"
  const PROPERTIES_MISMATCH := "Incorrect `Properties` type when downcasting"

  /** `Box::new(value)` for a value whose concrete type has tag `tag`. */
  function Erase<T>(tag: TypeTag, value: T): (r: Dynamic<T>)
    ensures r.tag == tag && r.value == value
  {
    Dynamic(tag, value)
  }

  /**
   * `downcast().expect(panicMessage)`: the payload comes back only when it
   * was boxed at the expected type; otherwise the thread panics.
   */
  function Downcast<T>(d: Dynamic<T>, expected: TypeTag, panicMessage: string): (r: Outcome<T>)
    ensures r.Done? <==> d.tag == expected
    ensures r.Done? ==> r.value == d.value
    ensures r.Panic? ==> r.message == panicMessage
  {
    if d.tag == expected then Done(d.value) else Panic(panicMessage)
  }

  /** Boxing and downcasting at the same type gives the value back. */
  lemma DowncastErase<T>(tag: TypeTag, value: T, panicMessage: string)
    ensures Downcast(Erase(tag, value), tag, panicMessage) == Done(value)
  {
  }

  /** Downcasting at any other type panics. */
  lemma DowncastMismatchPanics<T>(tag: TypeTag, other: TypeTag, value: T, panicMessage: string)
    requires tag != other
    ensures Downcast(Erase(tag, value), other, panicMessage) == Panic(panicMessage)
  {
  }

  /**
   * The erased `tick`: no message stays none, a message is boxed at the
   * component's `Message` type and unboxes to itself there.
   */
  function Tick<M>(message: Option<M>, messageType: TypeTag): (r: Option<Dynamic<M>>)
    ensures r.None? <==> message.None?
    ensures message.Some? ==> r.value.tag == messageType
    ensures message.Some? ==> Downcast(r.value, messageType, MESSAGE_MISMATCH) == Done(message.value)
  {
    match message
    case None => None
    case Some(m) => Some(Erase(messageType, m))
  }

  // ---------------------------------------------------------------------
  // Component definitions

  const PROPERTIES_TAKEN := "Already called a method that used the `Properties` value"

  /**
   * `ComponentDef<C>`: the definition of one component of type `C`, whose
   * properties can be taken out once. `componentType` and
   * `propertiesType` are the tags of `C` and of `C::Properties`.
   */
  class ComponentDef<P> {
    var key: Option<ComponentKey>
    var properties: Option<P>
    const componentType: TypeTag
    const propertiesType: TypeTag
    const typeName: string

    /** `ComponentDef::new`: the properties are stored, not yet taken. */
    constructor (componentType: TypeTag, propertiesType: TypeTag, typeName: string,
                 key: Option<ComponentKey>, properties: P)
      ensures this.componentType == componentType && this.propertiesType == propertiesType
      ensures this.typeName == typeName
      ensures this.key == key && this.properties == Some(properties)
    {
      this.componentType := componentType;
      this.propertiesType := propertiesType;
      this.typeName := typeName;
      this.key := key;
      this.properties := Some(properties);
    }

    /**
     * `properties_unwrap`: swaps `None` into the field and returns what was
     * there, panicking if it had already been taken.
     */
    method PropertiesUnwrap() returns (r: Outcome<P>)
      modifies this`properties
      ensures properties == None
      ensures old(properties).Some? ==> r == Done(old(properties).value)
      ensures old(properties).None? ==> r == Panic(PROPERTIES_TAKEN)
    {
      var taken := properties;
      properties := None;
      match taken
      case Some(p) => r := Done(p);
      case None => r := Panic(PROPERTIES_TAKEN);
    }

    /** `Template::key`. */
    function Key(): (r: Option<ComponentKey>)
      reads this
      ensures r == key
    {
      key
    }

    /** `Template::component_type_id`: the tag of the component's own type. */
    function ComponentTypeId(): (r: TypeTag)
      ensures r == componentType
    {
      componentType
    }

    /**
     * `Template::generate_id`: only the position hash and the component's
     * type make up the identity; the explicit key is not consulted.
     */
    function GenerateId(positionHash: u64): (r: ComponentId)
      ensures r.typeId == ComponentTypeId() && r.id == positionHash
      ensures IdEq(r, NewId(componentType, typeName, positionHash))
    {
      NewId(componentType, typeName, positionHash)
    }

    /**
     * `Template::dynamic_properties`: takes the properties out and boxes them
     * at the `Properties` type, panicking if they had already been taken.
     */
    method DynamicProperties() returns (r: Outcome<Dynamic<P>>)
      modifies this`properties
      ensures properties == None
      ensures old(properties).Some? ==> r == Done(Erase(propertiesType, old(properties).value))
      ensures old(properties).None? ==> r == Panic(PROPERTIES_TAKEN)
    {
      var p := PropertiesUnwrap();
      match p
      case Done(v) => r := Done(Erase(propertiesType, v));
      case Panic(m) => r := Panic(m);
    }
  }

  /**
   * Two definitions of the same component type produce identities that are
   * equal exactly when the position hashes are, whatever their keys.
   */
  lemma GenerateIdIgnoresKey<P>(d1: ComponentDef<P>, d2: ComponentDef<P>, h1: u64, h2: u64)
    requires d1.componentType == d2.componentType
    ensures IdEq(d1.GenerateId(h1), d2.GenerateId(h2)) <==> h1 == h2
  {
  }

  /** Definitions of different component types never produce equal identities. */
  lemma GenerateIdSeparatesTypes<P, Q>(d1: ComponentDef<P>, d2: ComponentDef<Q>, h1: u64, h2: u64)
    requires d1.componentType != d2.componentType
    ensures !IdEq(d1.GenerateId(h1), d2.GenerateId(h2))
  {
  }

  /**
   * The one-shot rule seen from a caller: after a definition's properties
   * were taken once, through either extraction, the next one panics.
   */
  method DynamicPropertiesTwice<P>(d: ComponentDef<P>) returns (first: Outcome<Dynamic<P>>, second: Outcome<Dynamic<P>>)
    requires d.properties.Some?
    modifies d`properties
    ensures first == Done(Erase(d.propertiesType, old(d.properties).value))
    ensures second == Panic(PROPERTIES_TAKEN)
    ensures d.properties == None
  {
    first := d.DynamicProperties();
    second := d.DynamicProperties();
  }
}
