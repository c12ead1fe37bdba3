# Mapping engine of the PAM authentication provider for Apache Guacamole

This Dafny project models the part of the provider that decides which Guacamole connection configurations an authenticated Unix user may use. It has three parts:

- **The user mapping** (`UserMapping.java`, module `UserMappings`, file `user_mapping.dfy`).
  - A class `UserMapping` holds a service name (default `"guacamole"`) and three maps: configuration name → configuration, user name → set of configuration names, group name → set of configuration names. The setters overwrite one entry in place.
  - `GetConfigurations` unions the user's reference set with those of the user's groups. It then copies every referenced configuration that is defined.
  - Both loops are kept. The method is proved against the value-level function `Resolve`, and `Resolve` is characterised by lemmas.
- **The content handler** (`UserMappingContentHandler.java`, module `ContentHandler`, file `content_handler.dfy`).
  - The SAX handler keeps a stack of parser states (DOCUMENT, TOP_LEVEL, CONFIG, PARAM, USER, GROUP, CONFIG_REF). It checks each element against a nesting table and its required attributes, and fills in a `UserMapping`.
  - The class `UserMappingContentHandler` has the Java fields. Its methods are proved against the value-level `Start` and `End`.
  - `Parents`, `Pushes` and `RequiredAttributes` state the nesting table on their own. `Start` and `End` are proved against that table.
  - The XML reader is reduced to a stream of `StartElement`/`EndElement` events. It rejects a mismatched end tag, a second root and an unclosed or missing root (`Feed`, `RunFrom`, `Parse`, `ParseDocument`).
- **The provider** (`PAMAuthenticationProvider.java`, module `Provider`, file `pam_provider.dfy`).
  - `getUserMapping` is a cache over two fields, `lastModified` and `cachedUserMapping`. It re-parses the mapping file only when `lastModified` is strictly less than the file's timestamp.
  - `getAuthorizedConfigurations` authenticates with PAM under the mapping's service name and then resolves the user's configurations.
  - The class methods are proved against the value-level `Refresh` and `Authorize`.

Inputs that stand in for I/O:

- The mapping file is a `MappingFile` value. It holds whether the file exists, its timestamp as read before the parse (line 111), its timestamp as read after the parse (line 128), and the document's events. The events are absent when reading fails with an `IOException`.
- PAM is a function from the service name to `Authenticated(groups)`, `NoUser` (a null user) or `PamFailure` (a `PAMException`).

Behaviour of the code that a reader may not expect:

- When a re-parse fails, `getUserMapping` returns null and does not return the previously cached mapping. `getAuthorizedConfigurations` then fails with a server error (`FailedReloadIsServerError`). Both cache fields stay as they were, so the next call parses again (`FailedParseIsRetried`).
- Required attributes are checked only for presence. An empty `protocol`, `name` or `value` is accepted, and no protocol is checked to be non-empty.
- Dangling references produce no warning; the code only has an "XXX" comment at that point. `Resolve` drops them without failing.
- A timestamp that moves backwards is ignored, because the comparison is a strict `<`. A file whose timestamp is 0 is never parsed, because `lastModified` starts at 0.
- Elements with other names are ignored by the handler: they push nothing. So `<foo><config .../></foo>` directly under the root is accepted as if `foo` were absent.
- After a successful parse, `lastModified` takes the timestamp read after the parse (line 128), not the one compared on line 111. If the file is rewritten while it is being parsed, the cache holds the earlier content under the later timestamp, and calls that see that timestamp do not parse again (`Refresh`, `ReloadThenHits`).

## Model

| member | source | states |
|---|---|---|
| UserMappings.UserMapping.constructor | src/main/java/com/andreasvoegele/guacamole/auth/unix/UserMapping.java:38-53 | a fresh mapping has service name "guacamole" and three empty maps |
| UserMappings.UserMapping.SetServiceName | src/main/java/com/andreasvoegele/guacamole/auth/unix/UserMapping.java:74-76 | replaces the service name; the three maps are unchanged |
| UserMappings.UserMapping.AddConfig | src/main/java/com/andreasvoegele/guacamole/auth/unix/UserMapping.java:86-88 | the name now maps to the given configuration, overwriting any earlier one; every other entry, the user and group maps and the service name are unchanged |
| UserMappings.UserMapping.AddUser | src/main/java/com/andreasvoegele/guacamole/auth/unix/UserMapping.java:98-100 | overwrites only the user map at that key (last call wins); nothing else changes |
| UserMappings.UserMapping.AddGroup | src/main/java/com/andreasvoegele/guacamole/auth/unix/UserMapping.java:110-112 | overwrites only the group map at that key (last call wins); nothing else changes |
| UserMappings.UserMapping.GetConfigurations | src/main/java/com/andreasvoegele/guacamole/auth/unix/UserMapping.java:123-149 | the two loops (union of reference sets, then copy of the defined configurations) compute Resolve of the current contents; the object is not modified (no modifies clause) |
| UserMappings.Resolve | src/main/java/com/andreasvoegele/guacamole/auth/unix/UserMapping.java:137-147 | the result holds only defined names, and each value equals the stored configuration (same protocol, same parameters) |
| UserMappings.GroupRefsMembership | src/main/java/com/andreasvoegele/guacamole/auth/unix/UserMapping.java:131-135 | a name is in the union built by the group loop iff some listed group that has an entry refers to it |
| UserMappings.ResolveMembership | src/main/java/com/andreasvoegele/guacamole/auth/unix/UserMapping.java:125-145 | the key set is exactly (refs(user) ∪ ⋃ refs(group)) ∩ defined names; a missing user or group contributes nothing; dangling names are dropped and the query never fails |
| UserMappings.ResolveIgnoresGroupOrder | src/main/java/com/andreasvoegele/guacamole/auth/unix/UserMapping.java:125-135 | two group lists with the same members, in any order and with any repetitions, give the same result |
| UserMappings.UnionExample | src/main/java/com/andreasvoegele/guacamole/auth/unix/UserMapping.java:127-145 | alice with {A} in staff with {B} resolves to exactly A and B |
| UserMappings.DanglingExample | src/main/java/com/andreasvoegele/guacamole/auth/unix/UserMapping.java:139-145 | alice referring only to an undefined "ghost" resolves to the empty map, not an error |
| ContentHandler.LegalStackShape | src/main/java/com/andreasvoegele/guacamole/auth/unix/UserMappingContentHandler.java:50-57 | a stack that obeys the nesting table has at most four states: DOCUMENT, TOP_LEVEL, one of CONFIG/USER/GROUP, then PARAM under CONFIG or CONFIG_REF under USER/GROUP |
| ContentHandler.Start | src/main/java/com/andreasvoegele/guacamole/auth/unix/UserMappingContentHandler.java:91-186 | a recognised element is accepted iff the nesting table allows it on the current top and all its required attributes are present (empty values accepted); a nesting error takes precedence over a missing attribute and is "param without config" for param, "config-ref without user or group" for config-ref and "nested element" otherwise; each accepted element's whole new state is given: on acceptance exactly its state is pushed and only the fields named next change; the root sets serviceName only when the attribute is present; config starts a fresh configuration with the protocol and no parameters; param sets one parameter (a repeated name overwrites); user/group start an empty reference set; config-ref adds to it (duplicates collapse); an unrecognised name changes nothing and never fails; the handler invariant is kept |
| ContentHandler.End | src/main/java/com/andreasvoegele/guacamole/auth/unix/UserMappingContentHandler.java:188-233 | a recognised element pops exactly one state; closing config registers the current configuration under its name (a later same-name config replaces it) and clears the current fields; closing user/group registers the collected set the same way; other names change nothing; the handler invariant is kept |
| ContentHandler.StartThenEndRestoresStack | src/main/java/com/andreasvoegele/guacamole/auth/unix/UserMappingContentHandler.java:91-233 | an element accepted on a stack and then closed leaves the stack as it was |
| ContentHandler.ParamOutsideConfigFails | src/main/java/com/andreasvoegele/guacamole/auth/unix/UserMappingContentHandler.java:126-129 | a param element while no config is open aborts with "param without config" |
| ContentHandler.LaterConfigWins | src/main/java/com/andreasvoegele/guacamole/auth/unix/UserMappingContentHandler.java:106-122 | of two config elements with the same name, the first holding a param, the first is registered with that parameter and is then replaced whole by the second: only the second one's protocol and (empty) parameters survive |
| ContentHandler.Feed | src/main/java/com/andreasvoegele/guacamole/auth/unix/UserMappingContentHandler.java:91-233 | delivering one event keeps the stack discipline: the stack is DOCUMENT followed by one state per open recognised element |
| ContentHandler.RunFrom | src/main/java/com/andreasvoegele/guacamole/auth/unix/UserMappingContentHandler.java:81-233 | over any sequence of well-nested events that the handler accepts, the stack is DOCUMENT plus one state per open recognised element, so its depth is 1 + the number of open recognised elements |
| ContentHandler.RunFromAppend | src/main/java/com/andreasvoegele/guacamole/auth/unix/UserMappingContentHandler.java:91-233 | handling two stretches of events equals handling the first and then, if it succeeded, the second; an error stops the run |
| ContentHandler.Parse | src/main/java/com/andreasvoegele/guacamole/auth/unix/PAMAuthenticationProvider.java:119-125 | parsing succeeds iff the handler accepts every event and the events leave no element open after a root was seen; an error from the handler is the parse's error; on success the result is the handler's mapping |
| ContentHandler.EmptyDocumentFails | src/main/java/com/andreasvoegele/guacamole/auth/unix/PAMAuthenticationProvider.java:124 | a document with no element is not well-formed |
| ContentHandler.RootOnlyDocument | src/main/java/com/andreasvoegele/guacamole/auth/unix/UserMappingContentHandler.java:91-104 | a document that is only the root element gives an empty mapping whose service name is the root's serviceName attribute when present and "guacamole" otherwise |
| ContentHandler.ParseAbortsOnError | src/main/java/com/andreasvoegele/guacamole/auth/unix/PAMAuthenticationProvider.java:117-137 | an error in any prefix of the events is the error of the whole parse, so no partial mapping is produced |
| ContentHandler.UserMappingContentHandler.constructor | src/main/java/com/andreasvoegele/guacamole/auth/unix/UserMappingContentHandler.java:40-78 | a new handler owns a fresh, empty UserMapping, has an empty stack and no current element |
| ContentHandler.UserMappingContentHandler.StartDocument | src/main/java/com/andreasvoegele/guacamole/auth/unix/UserMappingContentHandler.java:81-83 | pushes DOCUMENT; nothing else changes |
| ContentHandler.UserMappingContentHandler.EndDocument | src/main/java/com/andreasvoegele/guacamole/auth/unix/UserMappingContentHandler.java:86-88 | pops one state; nothing else changes |
| ContentHandler.UserMappingContentHandler.StartElement | src/main/java/com/andreasvoegele/guacamole/auth/unix/UserMappingContentHandler.java:91-186 | the fields and the owned mapping change as Start says; on an error the stack and the mapping are unchanged |
| ContentHandler.UserMappingContentHandler.EndElement | src/main/java/com/andreasvoegele/guacamole/auth/unix/UserMappingContentHandler.java:188-233 | the fields and the owned mapping change as End says |
| ContentHandler.UserMappingContentHandler.AsUserMapping | src/main/java/com/andreasvoegele/guacamole/auth/unix/UserMappingContentHandler.java:240-242 | returns the owned mapping object itself |
| ContentHandler.Deliver | src/main/java/com/andreasvoegele/guacamole/auth/unix/PAMAuthenticationProvider.java:121-124 | the reader hands one event to the handler object with the effect Feed describes |
| ContentHandler.ParseDocument | src/main/java/com/andreasvoegele/guacamole/auth/unix/PAMAuthenticationProvider.java:119-124 | parsing with a new handler gives a new UserMapping holding Parse's mapping, or exactly Parse's error |
| Provider.Load | src/main/java/com/andreasvoegele/guacamole/auth/unix/PAMAuthenticationProvider.java:117-137 | the file's content gives a mapping iff it could be read and it parses; the mapping is the parsed one; an IOException or a SAXException both give no mapping |
| Provider.Refresh | src/main/java/com/andreasvoegele/guacamole/auth/unix/PAMAuthenticationProvider.java:103-144 | a missing file returns nothing and keeps both fields; the file is parsed iff it exists and lastModified < its timestamp (strict, so an older timestamp is ignored); a successful parse stores the second timestamp reading and the new mapping and returns it; a failed parse (IOException or SAXException) returns nothing and keeps both fields; otherwise the cached mapping is returned unchanged |
| Provider.CacheHitsWhileUnchanged | src/main/java/com/andreasvoegele/guacamole/auth/unix/PAMAuthenticationProvider.java:111 | any run of calls that sees the file at a timestamp not newer than lastModified parses nothing, keeps the cache and returns the cached mapping every time |
| Provider.ReloadThenHits | src/main/java/com/andreasvoegele/guacamole/auth/unix/PAMAuthenticationProvider.java:111-142 | idempotence: after a successful parse, later calls that see the file at the stored timestamp return that same mapping without parsing |
| Provider.FailedParseIsRetried | src/main/java/com/andreasvoegele/guacamole/auth/unix/PAMAuthenticationProvider.java:131-137 | after a failed parse, the next call that sees the same timestamp parses again |
| Provider.ReloadExample | src/main/java/com/andreasvoegele/guacamole/auth/unix/PAMAuthenticationProvider.java:111-142 | version 1 is loaded; a newer version 2 replaces it; a newer version that fails to parse returns nothing and leaves version 2 cached |
| Provider.Authorize | src/main/java/com/andreasvoegele/guacamole/auth/unix/PAMAuthenticationProvider.java:147-168 | without a mapping, a server error "Configuration could not be read."; with one, PAM runs under the mapping's service name; an authenticated user gets the configurations resolved for the user's name and PAM groups; a null user or a PAMException gives unauthorized |
| Provider.FailedReloadIsServerError | src/main/java/com/andreasvoegele/guacamole/auth/unix/PAMAuthenticationProvider.java:131-152 | a failed re-parse makes the request a server error even though an earlier mapping is still cached, and the cache keeps that mapping |
| Provider.PAMAuthenticationProvider.constructor | src/main/java/com/andreasvoegele/guacamole/auth/unix/PAMAuthenticationProvider.java:66-74 | a new provider has lastModified 0 and no cached mapping |
| Provider.PAMAuthenticationProvider.GetUserMapping | src/main/java/com/andreasvoegele/guacamole/auth/unix/PAMAuthenticationProvider.java:103-144 | the fields and the result follow Refresh; a cache hit returns the cached object itself; a successful parse caches and returns a new object; every other outcome leaves both fields unchanged |
| Provider.PAMAuthenticationProvider.GetAuthorizedConfigurations | src/main/java/com/andreasvoegele/guacamole/auth/unix/PAMAuthenticationProvider.java:147-168 | the result is Authorize applied to what getUserMapping returns, and the cache changes as Refresh says |

## Left out

- XML tokenising and well-formedness checking (`XMLReaderFactory`, `InputSource`, character data, entities) are not modelled. A document is a sequence of start and end events with attribute maps. Only the reader's end-tag matching and its single-root rule are modelled.
- The file system and environment (`File.exists`, `File.lastModified`, `FileReader`, `getGuacamoleHome`) are inputs. The two timestamp readings are separate fields of `MappingFile`.
- PAM (`PAM.authenticate`, `UnixUser.getGroups`) is a native call. It is a function parameter from the service name to its outcome. The password is not modelled, because only PAM reads it.
- The `synchronized` block is not modelled. Its race, where two threads re-parse the same change because the lock does not re-check `lastModified`, is concurrency, and the model is sequential.
- Logging is not modelled, and neither is the unresolved-reference warning, which the code does not implement.
- `GuacamoleConfiguration` is not modelled beyond a value with a protocol and a parameter map. Its copy constructor is therefore a value copy, and later `${GUAC_USERNAME}` substitution is outside this core.
- `getIdentifier` (the constant "pam") is plumbing. The environment set up by the provider's constructor is replaced by the `MappingFile` input.
- `UserMapping.GetServiceName` is modelled as a getter function without a contract of its own.
- Java `long` timestamps are unbounded integers. The comparison never overflows in the source either, so nothing is lost.
- Insertion order of the `LinkedHashMap`/`LinkedHashSet` fields is not modelled. It affects only enumeration order, and the code never depends on it.
- An empty stack is not modelled: `peek` or `pop` on it would throw `EmptyStackException`. `StartElement` and `EndDocument` require a non-empty stack, and `EndElement` requires one through `Closes` when the name is recognised; `StartDocument` requires nothing. The reader always calls `startDocument` first, so these calls never see an empty stack.
