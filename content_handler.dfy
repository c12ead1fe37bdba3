/**
 * The SAX content handler that turns the events of unix-user-mapping.xml
 * into a UserMapping (UserMappingContentHandler.java): a stack of parser
 * states checked against a nesting table, the element being built, and
 * the mapping it fills in. Events stand in for the XML text; the XML
 * reader's own work is reduced to checking that end tags match.
 */
module ContentHandler {
  import opened Wrappers
  import opened UserMappings

  /** The name of the document root. */
  const RootTag: string := "unix-user-mapping"

  /** The parser's states. */
  datatype State = Document | TopLevel | Config | Param | User | Group | ConfigRef

  /** The reasons a parse is aborted with a SAXException. */
  datatype SaxError =
    | NestedElement(element: string)                      // "<element> cannot be nested."
    | ParamWithoutConfig                                  // "param without config"
    | ConfigRefWithoutUserOrGroup                         // "config-ref without user or group"
    | MissingAttribute(element: string, attribute: string) // "Each <element> must have a <attribute>."
    | NotWellFormed                                       // raised by the XML reader itself

  /** One callback of the XML reader: an element opens (with its attributes) or closes. */
  datatype Event = StartElement(name: string, attributes: map<string, string>) | EndElement(name: string)

  /** The state a recognised element pushes; None for a name the handler ignores. */
  function Pushes(name: string): Option<State>
  {
    if name == RootTag then Some(TopLevel)
    else if name == "config" then Some(Config)
    else if name == "param" then Some(Param)
    else if name == "user" then Some(User)
    else if name == "group" then Some(Group)
    else if name == "config-ref" then Some(ConfigRef)
    else None
  }

  /** The nesting table: the states on top of which the element of each state may open. */
  function Parents(s: State): set<State>
  {
    match s
    case Document => {}
    case TopLevel => {Document}
    case Config => {TopLevel}
    case User => {TopLevel}
    case Group => {TopLevel}
    case Param => {Config}
    case ConfigRef => {User, Group}
  }

  /** The attributes the element of each state must carry, in the order they are checked. */
  function RequiredAttributes(s: State): seq<string>
  {
    match s
    case Config => ["name", "protocol"]
    case Param => ["name", "value"]
    case User => ["name"]
    case Group => ["name"]
    case ConfigRef => ["name"]
    case _ => []
  }

  /** A stack the nesting table allows: DOCUMENT at the bottom, each state above a permitted parent. */
  predicate LegalStack(stack: seq<State>)
  {
    stack == [] || (stack[0] == Document && forall i :: 0 < i < |stack| ==> stack[i - 1] in Parents(stack[i]))
  }

  function Top(stack: seq<State>): State
    requires stack != []
  {
    stack[|stack| - 1]
  }

  /** The stacks the nesting table allows are the eight chains of at most four states. */
  lemma LegalStackShape(stack: seq<State>)
    requires LegalStack(stack)
    ensures |stack| <= 4
    ensures |stack| >= 2 ==> stack[1] == TopLevel
    ensures |stack| >= 3 ==> stack[2] in {Config, User, Group}
    ensures |stack| == 4 ==> (stack[3] == Param <==> stack[2] == Config) && stack[3] in {Param, ConfigRef}
  {
    if |stack| >= 2 {
      assert stack[0] in Parents(stack[1]);
    }
    if |stack| >= 3 {
      assert stack[1] in Parents(stack[2]);
    }
    if |stack| >= 4 {
      assert stack[2] in Parents(stack[3]);
    }
    assert |stack| >= 5 ==> stack[3] in Parents(stack[4]);
  }

  /** The handler's fields as a value: the state stack, the mapping and the element being built. */
  datatype HandlerState = HandlerState(
    stack: seq<State>,
    mapping: MappingValue,
    configName: Option<string>,
    config: Option<Configuration>,
    userOrGroupName: Option<string>,
    configNames: Option<set<string>>)

  /**
   * The handler's invariant: a legal stack, and a current configuration
   * exactly while a config element is open, a current user or group
   * exactly while a user or group element is open.
   */
  predicate Consistent(h: HandlerState)
  {
    && LegalStack(h.stack)
    && (h.configName.Some? <==> Config in h.stack)
    && (h.config.Some? <==> Config in h.stack)
    && (h.userOrGroupName.Some? <==> User in h.stack || Group in h.stack)
    && (h.configNames.Some? <==> User in h.stack || Group in h.stack)
  }

  /**
   * startElement: a recognised element is accepted exactly when the nesting
   * table allows it on the current top and its required attributes are
   * present (an empty value counts as present); it then pushes its state.
   * Any other element name changes nothing.
   */
  function Start(h: HandlerState, name: string, attributes: map<string, string>): (r: Result<HandlerState, SaxError>)
    requires Consistent(h) && h.stack != []
    ensures Pushes(name).None? ==> r == Ok(h)
    ensures Pushes(name).Some? ==>
              (r.Ok? <==> Top(h.stack) in Parents(Pushes(name).value)
                          && forall a :: a in RequiredAttributes(Pushes(name).value) ==> a in attributes)
    ensures Pushes(name).Some? && r.Ok? ==> r.value.stack == h.stack + [Pushes(name).value]
    ensures Pushes(name).Some? && r.Err? ==>
              (r.error.MissingAttribute? <==> Top(h.stack) in Parents(Pushes(name).value))
    ensures r.Err? && r.error.MissingAttribute? ==>
              && r.error.element == name
              && r.error.attribute in RequiredAttributes(Pushes(name).value)
              && r.error.attribute !in attributes
    ensures r.Err? && !r.error.MissingAttribute? ==>
              r.error == if name == "param" then ParamWithoutConfig
                         else if name == "config-ref" then ConfigRefWithoutUserOrGroup
                         else NestedElement(name)
    ensures r.Ok? ==> Consistent(r.value)
    ensures r.Ok? && name == RootTag ==>
              r.value == h.(mapping := if "serviceName" in attributes then h.mapping.(serviceName := attributes["serviceName"]) else h.mapping,
                            stack := h.stack + [TopLevel])
    ensures r.Ok? && name == "config" ==>
              && "name" in attributes && "protocol" in attributes
              && r.value == h.(configName := Some(attributes["name"]),
                               config := Some(Configuration(attributes["protocol"], map[])),
                               stack := h.stack + [Config])
    ensures r.Ok? && name == "param" ==>
              && "name" in attributes && "value" in attributes && h.config.Some?
              && r.value == h.(config := Some(h.config.value.(parameters := h.config.value.parameters[attributes["name"] := attributes["value"]])),
                               stack := h.stack + [Param])
    ensures r.Ok? && name == "user" ==>
              && "name" in attributes
              && r.value == h.(userOrGroupName := Some(attributes["name"]), configNames := Some({}), stack := h.stack + [User])
    ensures r.Ok? && name == "group" ==>
              && "name" in attributes
              && r.value == h.(userOrGroupName := Some(attributes["name"]), configNames := Some({}), stack := h.stack + [Group])
    ensures r.Ok? && name == "config-ref" ==>
              && "name" in attributes && h.configNames.Some?
              && r.value == h.(configNames := Some(h.configNames.value + {attributes["name"]}), stack := h.stack + [ConfigRef])
  {
    LegalStackShape(h.stack);
    var top := Top(h.stack);
    if name == RootTag then
      if top != Document then Err(NestedElement(RootTag))
      else
        var mapping := if "serviceName" in attributes then h.mapping.(serviceName := attributes["serviceName"]) else h.mapping;
        Ok(h.(mapping := mapping, stack := h.stack + [TopLevel]))
    else if name == "config" then
      if top != TopLevel then Err(NestedElement("config"))
      else if "name" !in attributes then Err(MissingAttribute("config", "name"))
      else if "protocol" !in attributes then Err(MissingAttribute("config", "protocol"))
      else
        Ok(h.(configName := Some(attributes["name"]),
              config := Some(Configuration(attributes["protocol"], map[])),
              stack := h.stack + [Config]))
    else if name == "param" then
      if top != Config then Err(ParamWithoutConfig)
      else if "name" !in attributes then Err(MissingAttribute("param", "name"))
      else if "value" !in attributes then Err(MissingAttribute("param", "value"))
      else
        var c := h.config.value;
        Ok(h.(config := Some(c.(parameters := c.parameters[attributes["name"] := attributes["value"]])),
              stack := h.stack + [Param]))
    else if name == "user" then
      if top != TopLevel then Err(NestedElement("user"))
      else if "name" !in attributes then Err(MissingAttribute("user", "name"))
      else Ok(h.(userOrGroupName := Some(attributes["name"]), configNames := Some({}), stack := h.stack + [User]))
    else if name == "group" then
      if top != TopLevel then Err(NestedElement("group"))
      else if "name" !in attributes then Err(MissingAttribute("group", "name"))
      else Ok(h.(userOrGroupName := Some(attributes["name"]), configNames := Some({}), stack := h.stack + [Group]))
    else if name == "config-ref" then
      if top != User && top != Group then Err(ConfigRefWithoutUserOrGroup)
      else if "name" !in attributes then Err(MissingAttribute("config-ref", "name"))
      else Ok(h.(configNames := Some(h.configNames.value + {attributes["name"]}), stack := h.stack + [ConfigRef]))
    else Ok(h)
  }

  /** What the XML reader guarantees at an end tag: a recognised element closes over its own state. */
  predicate Closes(stack: seq<State>, name: string)
  {
    Pushes(name).Some? ==> stack != [] && Top(stack) == Pushes(name).value
  }

  /**
   * endElement: a recognised element pops its state. Closing config
   * registers the current configuration under its name, closing user or
   * group registers the collected reference set (a later entry with the
   * same name replaces an earlier one); each then clears the current
   * element. Any other element name changes nothing.
   */
  function End(h: HandlerState, name: string): (r: HandlerState)
    requires Consistent(h) && Closes(h.stack, name)
    ensures Consistent(r)
    ensures Pushes(name).None? ==> r == h
    ensures Pushes(name).Some? ==> r.stack == h.stack[..|h.stack| - 1]
    ensures name == "config" ==>
              && h.configName.Some? && h.config.Some?
              && r.mapping == h.mapping.(configNameToConfig := h.mapping.configNameToConfig[h.configName.value := h.config.value])
              && r.configName.None? && r.config.None?
    ensures name == "user" ==>
              && h.userOrGroupName.Some? && h.configNames.Some?
              && r.mapping == h.mapping.(userNameToConfigNames := h.mapping.userNameToConfigNames[h.userOrGroupName.value := h.configNames.value])
              && r.userOrGroupName.None? && r.configNames.None?
    ensures name == "group" ==>
              && h.userOrGroupName.Some? && h.configNames.Some?
              && r.mapping == h.mapping.(groupNameToConfigNames := h.mapping.groupNameToConfigNames[h.userOrGroupName.value := h.configNames.value])
              && r.userOrGroupName.None? && r.configNames.None?
    ensures name != "config" && name != "user" && name != "group" ==>
              r == h.(stack := r.stack)
  {
    LegalStackShape(h.stack);
    var popped := if h.stack == [] then [] else h.stack[..|h.stack| - 1];
    if name == RootTag then
      h.(stack := popped)
    else if name == "config" then
      h.(mapping := h.mapping.(configNameToConfig := h.mapping.configNameToConfig[h.configName.value := h.config.value]),
         configName := None, config := None, stack := popped)
    else if name == "param" then
      h.(stack := popped)
    else if name == "user" then
      h.(mapping := h.mapping.(userNameToConfigNames := h.mapping.userNameToConfigNames[h.userOrGroupName.value := h.configNames.value]),
         userOrGroupName := None, configNames := None, stack := popped)
    else if name == "group" then
      h.(mapping := h.mapping.(groupNameToConfigNames := h.mapping.groupNameToConfigNames[h.userOrGroupName.value := h.configNames.value]),
         userOrGroupName := None, configNames := None, stack := popped)
    else if name == "config-ref" then
      h.(stack := popped)
    else h
  }

  /** An element opened and closed again from a legal stack leaves the stack as it was. */
  lemma StartThenEndRestoresStack(h: HandlerState, name: string, attributes: map<string, string>)
    requires Consistent(h) && h.stack != [] && Start(h, name, attributes).Ok?
    ensures Closes(Start(h, name, attributes).value.stack, name)
    ensures End(Start(h, name, attributes).value, name).stack == h.stack
  {
  }

  /** A param element outside a config element aborts the parse, whatever its attributes. */
  lemma ParamOutsideConfigFails(h: HandlerState, attributes: map<string, string>)
    requires Consistent(h) && h.stack != [] && Config !in h.stack
    ensures Start(h, "param", attributes) == Err(ParamWithoutConfig)
  {
  }

  /**
   * Two config elements with the same name, one after the other, the first
   * with a param child: only the second one's protocol and (empty)
   * parameters survive; the first one's parameter is gone.
   */
  lemma LaterConfigWins(h: HandlerState, name: string, protocol1: string, protocol2: string, param: string, value: string)
    requires Consistent(h) && h.stack == [Document, TopLevel]
    ensures var first := map["name" := name, "protocol" := protocol1];
            var p := map["name" := param, "value" := value];
            var second := map["name" := name, "protocol" := protocol2];
            var c1 := Start(h, "config", first).value;
            var c1p := End(Start(c1, "param", p).value, "param");
            var h1 := End(c1p, "config");
            var h2 := End(Start(h1, "config", second).value, "config");
            && h1.mapping.configNameToConfig[name] == Configuration(protocol1, map[param := value])
            && h2.mapping.configNameToConfig == h.mapping.configNameToConfig[name := Configuration(protocol2, map[])]
  {
    var first := map["name" := name, "protocol" := protocol1];
    var p := map["name" := param, "value" := value];
    var c1 := Start(h, "config", first).value;
    assert c1.stack == [Document, TopLevel, Config];
    var c1p := End(Start(c1, "param", p).value, "param");
    assert c1p == c1.(config := Some(Configuration(protocol1, map[param := value])));
  }

  /** The states pushed for the open elements, bottom first: one per recognised name. */
  function Pushed(open: seq<string>): seq<State>
  {
    if open == [] then []
    else
      var last := open[|open| - 1];
      Pushed(open[..|open| - 1]) + if Pushes(last).Some? then [Pushes(last).value] else []
  }

  /** The reader's state during a parse: open elements, whether the root was seen, and the handler. */
  datatype ParseState = ParseState(open: seq<string>, rootSeen: bool, handler: HandlerState)

  /**
   * The stack discipline: the handler's stack is DOCUMENT followed by one
   * state for each open recognised element, so its depth is one more than
   * the number of those elements.
   */
  predicate Tracks(p: ParseState)
  {
    Consistent(p.handler) && p.handler.stack == [Document] + Pushed(p.open)
  }

  /** A handler before startDocument: empty stack, fresh mapping, no current element. */
  const InitialHandler: HandlerState := HandlerState([], EmptyMapping, None, None, None, None)

  /** The reader's state right after startDocument. */
  const Started: ParseState := ParseState([], false, InitialHandler.(stack := [Document]))

  /**
   * One event as the XML reader delivers it: a second root element or an
   * end tag that does not match the innermost open element is a
   * well-formedness error; otherwise the handler sees the event.
   */
  function Feed(p: ParseState, e: Event): (r: Result<ParseState, SaxError>)
    requires Tracks(p)
    ensures r.Ok? ==> Tracks(r.value)
  {
    match e
    case StartElement(name, attributes) =>
      if p.open == [] && p.rootSeen then Err(NotWellFormed)
      else
        (match Start(p.handler, name, attributes)
         case Err(error) => Err(error)
         case Ok(h) =>
           assert (p.open + [name])[..|p.open|] == p.open;
           Ok(ParseState(p.open + [name], true, h)))
    case EndElement(name) =>
      if p.open == [] || p.open[|p.open| - 1] != name then Err(NotWellFormed)
      else Ok(ParseState(p.open[..|p.open| - 1], p.rootSeen, End(p.handler, name)))
  }

  /** The events fed one after the other; the first error aborts the parse. */
  function RunFrom(p: ParseState, events: seq<Event>): (r: Result<ParseState, SaxError>)
    requires Tracks(p)
    ensures r.Ok? ==> Tracks(r.value)
    decreases |events|
  {
    if events == [] then Ok(p)
    else
      match Feed(p, events[0])
      case Err(error) => Err(error)
      case Ok(q) => RunFrom(q, events[1..])
  }

  /**
   * The outcome of parsing a whole document: the handler's mapping, or the
   * first error; an unclosed element or a missing root is a
   * well-formedness error.
   */
  function Parse(events: seq<Event>): (r: Result<MappingValue, SaxError>)
    ensures r.Ok? <==> RunFrom(Started, events).Ok? && RunFrom(Started, events).value.open == [] && RunFrom(Started, events).value.rootSeen
    ensures RunFrom(Started, events).Err? ==> r == Err(RunFrom(Started, events).error)
    ensures r.Ok? ==> r.value == RunFrom(Started, events).value.handler.mapping
  {
    match RunFrom(Started, events)
    case Err(error) => Err(error)
    case Ok(p) => if p.open != [] || !p.rootSeen then Err(NotWellFormed) else Ok(p.handler.mapping)
  }

  /** A document with no element at all is not well-formed. */
  lemma EmptyDocumentFails()
    ensures Parse([]) == Err(NotWellFormed)
  {
  }

  /**
   * A document that is only the root element yields a fresh mapping whose
   * service name is the root's serviceName attribute when present and
   * "guacamole" otherwise.
   */
  lemma RootOnlyDocument(attributes: map<string, string>)
    ensures Parse([StartElement(RootTag, attributes), EndElement(RootTag)])
         == Ok(if "serviceName" in attributes then EmptyMapping.(serviceName := attributes["serviceName"]) else EmptyMapping)
  {
    var events := [StartElement(RootTag, attributes), EndElement(RootTag)];
    var p1 := Feed(Started, events[0]).value;
    assert p1.open == [RootTag] && p1.rootSeen;
    var p2 := Feed(p1, events[1]).value;
    assert p2.open == [] && p2.handler.mapping == p1.handler.mapping;
    assert events[1..][1..] == [];
    assert RunFrom(p1, events[1..]) == Ok(p2);
  }

  /** Feeding two stretches of events is feeding the first and then, if it succeeded, the second. */
  lemma {:induction false} RunFromAppend(p: ParseState, events1: seq<Event>, events2: seq<Event>)
    requires Tracks(p)
    decreases |events1|
    ensures RunFrom(p, events1 + events2)
         == match RunFrom(p, events1)
            case Err(error) => Err(error)
            case Ok(q) => RunFrom(q, events2)
  {
    if events1 != [] {
      assert (events1 + events2)[0] == events1[0];
      assert (events1 + events2)[1..] == events1[1..] + events2;
      match Feed(p, events1[0])
      case Err(_) =>
      case Ok(q) => RunFromAppend(q, events1[1..], events2);
    } else {
      assert events1 + events2 == events2;
    }
  }

  /** An error anywhere aborts the whole parse: no partial mapping is produced. */
  lemma ParseAbortsOnError(events: seq<Event>, k: nat)
    requires k <= |events| && RunFrom(Started, events[..k]).Err?
    ensures Parse(events) == Err(RunFrom(Started, events[..k]).error)
  {
    assert events == events[..k] + events[k..];
    RunFromAppend(Started, events[..k], events[k..]);
  }

  /** The handler object: the state stack, the element being built and the mapping being filled. */
  class UserMappingContentHandler {
    const userMapping: UserMapping
    var state: seq<State>
    var configName: Option<string>
    var config: Option<Configuration>
    var userOrGroupName: Option<string>
    var configNames: Option<set<string>>

    /** The handler's fields as a value. */
    function Snapshot(): HandlerState
      reads this, userMapping
    {
      HandlerState(state, userMapping.Value(), configName, config, userOrGroupName, configNames)
    }

    ghost predicate Valid()
      reads this, userMapping
    {
      Consistent(Snapshot())
    }

    /** A new handler owns a fresh, empty mapping and has an empty stack. */
    constructor ()
      ensures fresh(userMapping)
      ensures Snapshot() == InitialHandler
    {
      userMapping := new UserMapping();
      state := [];
      configName, config := None, None;
      userOrGroupName, configNames := None, None;
    }

    /** startDocument pushes DOCUMENT. */
    method StartDocument()
      modifies this
      ensures Snapshot() == old(Snapshot()).(stack := old(state) + [Document])
    {
      state := state + [Document];
    }

    /** endDocument pops DOCUMENT. */
    method EndDocument()
      requires state != []
      modifies this
      ensures Snapshot() == old(Snapshot()).(stack := old(state)[..|old(state)| - 1])
    {
      state := state[..|state| - 1];
    }

    /**
     * startElement: behaves as Start. On an error the stack and the mapping
     * are as before (the current-element fields may already have been
     * overwritten, as in the source, but the parse is over).
     */
    method StartElement(qName: string, attributes: map<string, string>) returns (outcome: Outcome<SaxError>)
      requires Valid() && state != []
      modifies this, userMapping
      ensures var r := Start(old(Snapshot()), qName, attributes);
              && (outcome.Pass? <==> r.Ok?)
              && (r.Ok? ==> Snapshot() == r.value)
              && (r.Err? ==> outcome == Fail(r.error) && state == old(state) && userMapping.Value() == old(userMapping.Value()))
    {
      LegalStackShape(state);
      if qName == RootTag {
        if Top(state) != Document {
          return Fail(NestedElement(RootTag));
        }
        var serviceName := Lookup(attributes, "serviceName");
        if serviceName.Some? {
          userMapping.SetServiceName(serviceName.value);
        }
        state := state + [TopLevel];
      } else if qName == "config" {
        if Top(state) != TopLevel {
          return Fail(NestedElement("config"));
        }
        configName := Lookup(attributes, "name");
        if configName.None? {
          return Fail(MissingAttribute("config", "name"));
        }
        var protocol := Lookup(attributes, "protocol");
        if protocol.None? {
          return Fail(MissingAttribute("config", "protocol"));
        }
        config := Some(Configuration(protocol.value, map[]));
        state := state + [Config];
      } else if qName == "param" {
        if Top(state) != Config {
          return Fail(ParamWithoutConfig);
        }
        var name := Lookup(attributes, "name");
        if name.None? {
          return Fail(MissingAttribute("param", "name"));
        }
        var value := Lookup(attributes, "value");
        if value.None? {
          return Fail(MissingAttribute("param", "value"));
        }
        config := Some(config.value.(parameters := config.value.parameters[name.value := value.value]));
        state := state + [Param];
      } else if qName == "user" {
        if Top(state) != TopLevel {
          return Fail(NestedElement("user"));
        }
        userOrGroupName := Lookup(attributes, "name");
        if userOrGroupName.None? {
          return Fail(MissingAttribute("user", "name"));
        }
        configNames := Some({});
        state := state + [User];
      } else if qName == "group" {
        if Top(state) != TopLevel {
          return Fail(NestedElement("group"));
        }
        userOrGroupName := Lookup(attributes, "name");
        if userOrGroupName.None? {
          return Fail(MissingAttribute("group", "name"));
        }
        configNames := Some({});
        state := state + [Group];
      } else if qName == "config-ref" {
        if Top(state) != User && Top(state) != Group {
          return Fail(ConfigRefWithoutUserOrGroup);
        }
        var name := Lookup(attributes, "name");
        if name.None? {
          return Fail(MissingAttribute("config-ref", "name"));
        }
        configNames := Some(configNames.value + {name.value});
        state := state + [ConfigRef];
      }
      outcome := Pass;
    }

    /** endElement: behaves as End. */
    method EndElement(qName: string)
      requires Valid() && Closes(state, qName)
      modifies this, userMapping
      ensures Snapshot() == End(old(Snapshot()), qName)
    {
      LegalStackShape(state);
      if qName == RootTag {
        state := state[..|state| - 1];
      } else if qName == "config" {
        userMapping.AddConfig(configName.value, config.value);
        configName, config := None, None;
        state := state[..|state| - 1];
      } else if qName == "param" {
        state := state[..|state| - 1];
      } else if qName == "user" {
        userMapping.AddUser(userOrGroupName.value, configNames.value);
        userOrGroupName, configNames := None, None;
        state := state[..|state| - 1];
      } else if qName == "group" {
        userMapping.AddGroup(userOrGroupName.value, configNames.value);
        userOrGroupName, configNames := None, None;
        state := state[..|state| - 1];
      } else if qName == "config-ref" {
        state := state[..|state| - 1];
      }
    }

    /** The mapping the handler has built. */
    method AsUserMapping() returns (m: UserMapping)
      ensures m == userMapping
    {
      m := userMapping;
    }
  }

  /**
   * The XML reader delivering one event to the handler: Feed, carried out
   * on the handler object.
   */
  method Deliver(handler: UserMappingContentHandler, open: seq<string>, rootSeen: bool, e: Event)
    returns (r: Result<(seq<string>, bool), SaxError>)
    requires Tracks(ParseState(open, rootSeen, handler.Snapshot()))
    modifies handler, handler.userMapping
    ensures var f := Feed(old(ParseState(open, rootSeen, handler.Snapshot())), e);
            && (r.Ok? <==> f.Ok?)
            && (r.Err? ==> r.error == f.error)
            && (r.Ok? ==> f.value == ParseState(r.value.0, r.value.1, handler.Snapshot()))
  {
    match e
    case StartElement(name, attributes) =>
      if open == [] && rootSeen {
        return Err(NotWellFormed);
      }
      var outcome := handler.StartElement(name, attributes);
      if outcome.Fail? {
        return Err(outcome.error);
      }
      r := Ok((open + [name], true));
    case EndElement(name) =>
      if open == [] || open[|open| - 1] != name {
        return Err(NotWellFormed);
      }
      handler.EndElement(name);
      r := Ok((open[..|open| - 1], rootSeen));
  }

  /**
   * The XML reader driving a fresh handler over a document's events: the
   * result is a new UserMapping holding Parse's mapping, or Parse's error.
   */
  method ParseDocument(events: seq<Event>) returns (r: Result<UserMapping, SaxError>)
    ensures r.Ok? <==> Parse(events).Ok?
    ensures r.Ok? ==> fresh(r.value) && r.value.Value() == Parse(events).value
    ensures r.Err? ==> r.error == Parse(events).error
  {
    var handler := new UserMappingContentHandler();
    handler.StartDocument();
    var open: seq<string> := [];
    var rootSeen := false;
    for i := 0 to |events|
      invariant fresh(handler) && fresh(handler.userMapping)
      invariant Tracks(ParseState(open, rootSeen, handler.Snapshot()))
      invariant RunFrom(Started, events) == RunFrom(ParseState(open, rootSeen, handler.Snapshot()), events[i..])
    {
      assert events[i..][0] == events[i] && events[i..][1..] == events[i + 1..];
      var delivered := Deliver(handler, open, rootSeen, events[i]);
      if delivered.Err? {
        return Err(delivered.error);
      }
      open, rootSeen := delivered.value.0, delivered.value.1;
    }
    if open != [] || !rootSeen {
      return Err(NotWellFormed);
    }
    handler.EndDocument();
    var m := handler.AsUserMapping();
    r := Ok(m);
  }
}
