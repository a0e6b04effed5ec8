# A verified model of the engine's state machines and data structures

This project models, in Dafny, the deterministic core of a pygame game engine, its networking layer and its scene editor. The model covers container manipulation, state machines and codecs. Rendering, sockets, threads, the clock, uuid4 and the pygame, pymunk and Qt libraries are outside it. The clock is a `now` parameter; fresh ids, decoded file contents and the answers of libraries the code calls are parameters too.

Run-time values (Python's None, bool, int, float and str, pygame's Vector2, Color and Rect, lists, tuples, dicts, objects) are the `Values.Value` datatype. Python's exceptions are the `Wrappers.Error` cases of a `Result`. Objects the source updates in place are classes with `modifies` frames. Where many objects link to each other (actors, transforms, widgets), they live in one arena: a `Hierarchy.Forest` of parent and children maps, with each object's other fields as a value.

The modules follow the source files:

- **Networking.** `NetSerialization`, `NetComponents` and `NetManager` (engine/networking/network_components.py: the list codec, the sync policy and dirty check, the actor registry and its handlers). `NetworkSync` and `NetworkSyncRegistry` (engine/network_component.py: authority, per-variable filters, timed update, class-level handlers). `Networking` (engine/networking.py: the message envelope, roles, capacity, routing and broadcast). `NetworkUtils` (engine/network_utils.py).
- **Actors, components and scenes.**
  - `CoreActor` (engine/core/actor.py and the `__type__` component codec; engine/actor.py is the same code without the network helpers), `EngineActor` (engine/actor/actor.py with engine/component/component.py), `WorldActor` and `WorldComponent` (engine/core/world).
  - `TransformComponent`, `Scenes` (engine/core/scene.py and engine/scene.py), `SceneStrict` (engine/scene/scene.py), `Games` (engine/__init__.py) and `GameStrict` (engine/game/game.py).
- **Input.** `InputManagers` (engine/input/input_manager.py, whose copy engine/input_manager.py is the same code), `InputComponents`, `EngineInputs` (the InputComponent of engine/components.py) and `Clickable`.
- **User interface.** `Widgets` (engine/ui/widget.py), `Sliders`, `TextInputs` and `UIManagers`. engine/rendering/ui.py and engine/ui.py repeat these classes and are modelled by the same modules; engine/ui.py's different order of mouse handling is modelled separately.
- **Game content.**
  - `TilemapComponents` (game/components/tilemap_component.py, including the greedy partition of solid tiles into collision boxes) and `SimpleTilemaps` (game/components/tilemap.py).
  - `Animations` (engine/rendering/enhanced_animation.py).
  - `HealthComponents` (engine/components.py, and engine/components/health_component.py, which holds the same class).
  - `Colliders`, `Sprite`, `AssetCache` and `Assets` (the three asset managers engine/core/asset_manager.py, engine/resources/assetManager.py and engine/asset_manager.py, which share their caching rules).
  - `Lobby` and `JoinLobby` (game/scenes).
- **Editor.** `EditorUtils` (undo/redo and the value codec), `EditorProjects`, `EditorScenes` (editor/editor_scene.py), `Editor` (editor/editor.py), `EditorTools` (the scene validator), `ExampleComponents` and `Naming` (the first-free-name rule).

`Strings`, `Values` and `Wrappers` are shared helpers. They model Python's str() of an integer, int() of digits, str.strip(), the value type and Option/Result.

Each method that changes state is proved against a function of the old state. The properties the code promises are proved about those functions as lemmas. Examples include round trips of the codecs, the consistency of parent and children links, tag indexes without empty buckets, bounded logs and stacks, and "nothing else changes" frames. Where the code evidently does not do what it was meant to, the model keeps both versions; the Findings section lists them.

## Model

| member | source | states |
|---|---|---|
| Hierarchy.RemoveFirst | engine/core/actor.py:240-242 | list.remove of a present child drops exactly one occurrence and keeps every other element; an absent element leaves the list unchanged |
| Hierarchy.RemoveAppended | engine/core/actor.py:230-242 | removing a child just appended to a list that lacked it gives back the earlier list |
| Hierarchy.AdoptedLinked | engine/core/actor.py:230-236 | add_child keeps parent links and children lists consistent and leaves the child in exactly one list: the new parent's |
| Hierarchy.AttachLinked | engine/core/actor.py:234-235 | appending a parentless node to p's list with p as its parent keeps the links consistent |
| Hierarchy.DetachedLinked | engine/core/actor.py:232-233 | taking a child out of its former parent's list and clearing its parent keeps the links consistent |
| Hierarchy.Forest.constructor | engine/core/actor.py:210-211 | an empty hierarchy has no nodes and no links |
| Hierarchy.Forest.AddNode | engine/core/actor.py:210-211 | a new actor starts without parent and with an empty children list |
| Hierarchy.Forest.AddChild | engine/core/actor.py:230-236 | the child is first removed from its previous parent and then appended to p's list, after which p is its only parent |
| Hierarchy.Forest.RemoveChild | engine/core/actor.py:238-243 | only a current child is affected: it loses its parent and its first occurrence leaves p's list; otherwise nothing changes |
| Hierarchy.Forest.Detach | engine/core/actor.py:232-233 | the child leaves whatever list holds it and has no parent afterwards |
| Hierarchy.Forest.ParentOf | engine/core/actor.py:210 | a node has a parent exactly when it is linked, and it is then listed among that parent's children |
| Hierarchy.ParentChildAgree | engine/core/actor.py:230-243 | c's parent is p exactly when c is listed among p's children |
| Naming.SuffixedInjective | editor/editor.py:89-91 | two renamed candidates name_m and name_n coincide only when m equals n |
| Naming.FirstFreeIsUnique | editor/editor.py:85-91 | the renaming rule determines a single name for a given set of taken names |
| Naming.UniqueName | editor/editor.py:85-91 | the renaming loop always stops with a name that is not taken: the original when free and otherwise the first free name_1 name_2 ... |
| NetSerialization.Encode | engine/networking/network_components.py:62-87 | _serialize_value writes a list exactly for a list, tuple, Vector2, Color or Rect, of the same length for a list or tuple, and a dict exactly for a dict, an object with a __dict__ or a callable, keeping a dict's keys |
| NetSerialization.Decode | engine/networking/network_components.py:164-185 | no contract of its own, because a postcondition on this recursion makes the round-trip proofs unstable; DecodeErrors, DecodeEncode, DecodeEncodeList and DecodeEncodeDict state what it does |
| NetSerialization.DecodeErrors | engine/networking/network_components.py:164-185 | _deserialize_value fails only with pygame.Color's ValueError, and keeps well-formed values well formed |
| NetSerialization.EncodeKeepsNumbers | engine/networking/network_components.py:62-87 | _serialize_value gives a number exactly for a number, of the same kind, unchanged |
| NetSerialization.EncodeIsJson | engine/networking/network_components.py:62-87 | every encoding is made of None, bools, numbers, strings, lists and string-keyed dicts |
| NetSerialization.DecodeEncode | engine/networking/network_components.py:164-185 | _deserialize_value applied to what _serialize_value (lines 62-87) writes gives back every value that has no vectors, colours, rects, tuples, objects or number pairs and quadruples |
| NetSerialization.DecodeEncodeList | engine/networking/network_components.py:172-181 | a list that does not look like a vector or a colour comes back when each item does |
| NetSerialization.DecodeEncodeDict | engine/networking/network_components.py:182-183 | a dict comes back when each value does |
| NetSerialization.RectComesBackAsColor | engine/networking/network_components.py:176-178 | a Rect whose fields fit in a byte comes back as a Color |
| NetSerialization.WideRectFails | engine/networking/network_components.py:176-178 | a Rect with a field above 255 makes the decoder raise ValueError |
| NetSerialization.NumberPairBecomesVector | engine/networking/network_components.py:173-175 | a plain list of two numbers comes back as a Vector2 |
| NetSerialization.SerializeComponent | engine/networking/network_components.py:17-34 | the dict has exactly type, module, enabled and data, with the class name, module and network data of the component |
| NetSerialization.StrList | engine/networking/network_components.py:44 | the tags as a list of the same strings in the same order |
| NetSerialization.SerializeComponents | engine/networking/network_components.py:54-57 | no more component dicts than components |
| NetSerialization.SerializeActor | engine/networking/network_components.py:37-59 | the dict has exactly id, name, active, enabled, tags, transform and components |
| NetSerialization.StrItems | engine/networking/network_components.py:98 | reading a list of strings gives the strings, item by item |
| NetSerialization.StrItemsOfStrList | engine/networking/network_components.py:98 | the tags written by serialize_actor read back as the same tags |
| NetSerialization.DeserializeComponent | engine/networking/network_components.py:121-161 | a component is made only from a dict with type, module and enabled whose class is found; it has that type and the attributes of a fresh instance |
| NetSerialization.AddComponents | engine/networking/network_components.py:113-116 | adding the found components keeps the actor's dict and list in step |
| NetSerialization.DeserializeActor | engine/networking/network_components.py:90-118 | an actor is built with the sent id, active and enabled flags, the sent name or a generated one for an empty name, and consistent components |
| NetSerialization.ActorRoundTrip | engine/networking/network_components.py:37-118 | id, name, flags, tags and transform survive serialize_actor then deserialize_actor |
| NetSerialization.ComponentRoundTrip | engine/networking/network_components.py:121-161 | a component whose class the receiver knows comes back with its type, module, enabled flag and every sent attribute a fresh instance has |
| NetComponents.StatesKeys | engine/networking/network_components.py:274-285 | the captured class names are exactly those of the components should_sync_component accepts |
| NetComponents.ShouldSync | engine/networking/network_components.py:236-247 | a predicate with no contract of its own: the NetworkComponent never syncs, blacklist mode syncs the classes off the blacklist and any other mode the classes on the whitelist; ListAdditions, BlacklistCaptures and WhitelistCaptures state its consequences |
| NetComponents.States | engine/networking/network_components.py:274-285 | only classes on the actor are captured, and never the NetworkComponent itself |
| NetComponents.ListAdditions | engine/networking/network_components.py:220-247 | add_to_blacklist stops exactly that class syncing in blacklist mode and changes nothing in whitelist mode; add_to_whitelist starts exactly that class (never the NetworkComponent) in whitelist mode and changes nothing in blacklist mode |
| NetComponents.BlacklistCaptures | engine/networking/network_components.py:236-285 | in blacklist mode every class present but the blacklisted ones and NetworkComponent is captured |
| NetComponents.WhitelistCaptures | engine/networking/network_components.py:236-285 | in whitelist mode exactly the whitelisted classes present, never NetworkComponent, are captured |
| NetComponents.StatesValue | engine/networking/network_components.py:281-285 | each captured state is serialize_component of a synced component of that class |
| NetComponents.CapturedIsSerialized | engine/networking/network_components.py:281-285 | with one component per class, the state captured for a class is that component's serialization |
| NetComponents.SyncedList | engine/networking/network_components.py:308-313 | no more entries than components |
| NetComponents.UpdatePayload | engine/networking/network_components.py:316-331 | the update carries exactly network_id, actor_id, owner_id, components and transform |
| NetComponents.DecodeInto | engine/networking/network_components.py:373-380 | every attribute the component has and the data sends (and not skipped) is set to its decoded value, the others kept; it fails exactly when one decode raises |
| NetComponents.ApplySprite | engine/networking/network_components.py:370-395 | the sprite case keeps the component's identity, type and enabled flag |
| NetComponents.ApplyData | engine/networking/network_components.py:373-380 | corrected: a non-sprite component reads the data back with its own deserialize_from_network |
| NetComponents.ApplyDataAsWritten | engine/networking/network_components.py:371-380 | as written: the component keeps its id, class and enabled flag; a non-sprite component raises exactly when one of its sent attributes fails the list codec, and otherwise every sent attribute it has becomes the list-codec reading of the data |
| NetComponents.MoverSendsTaggedVector | engine/networking/network_components.py:17-34 | a component whose network data tags a Vector2 with __type__ sends that tagged dict |
| NetComponents.ListCodecKeepsTaggedVector | engine/networking/network_components.py:164-185 | the list codec leaves a __type__-tagged dict as a dict |
| NetComponents.TaggedVectorArrivesAsDict | engine/networking/network_components.py:373-380 | as written, the replica's Vector2 attribute becomes the tagged dict the owner sent |
| NetComponents.ApplyDataReplicates | engine/networking/network_components.py:373-380 | with the corrected rule every attribute the owner sent arrives as the owner's value, and the others are kept |
| NetComponents.ReplaceComponent | engine/networking/network_components.py:364-380 | the updated component takes its old place: dict and list stay in step and list order is kept |
| NetComponents.ReplacedInSync | engine/networking/network_components.py:364-380 | the replaced dict and list are still in step |
| NetComponents.ApplyOne | engine/networking/network_components.py:360-395 | corrected (Findings row 4): one entry keeps the actor's id, its component classes and the dict and list in step |
| NetComponents.ApplyAll | engine/networking/network_components.py:360-395 | corrected (Findings row 4): the entries applied in order keep the actor's id and its dict and list in step |
| NetComponents.ErrorStops | engine/networking/network_components.py:360-395 | once an entry has raised, the later ones are never applied |
| NetComponents.ApplyTransform | engine/networking/network_components.py:349-357 | the transform part changes neither id nor components, and on success sets position and scale from the sent lists |
| NetComponents.ApplyUpdate | engine/networking/network_components.py:349-395 | corrected (Findings row 4): transform then components keep the actor's id and consistency |
| NetComponents.OrServer | engine/networking/network_components.py:199 | owner_id or "server": never empty, the owner when it is a non-empty string |
| NetComponents.NetworkComponent.constructor | engine/networking/network_components.py:194-213 | the network id drawn, the owner, blacklist mode with empty lists, no capture |
| NetComponents.NetworkComponent.SetSyncMode | engine/networking/network_components.py:215-218 | only "blacklist" and "whitelist" change the mode; nothing else changes |
| NetComponents.NetworkComponent.AddToBlacklist | engine/networking/network_components.py:220-222 | the class joins the blacklist; nothing else changes |
| NetComponents.NetworkComponent.RemoveFromBlacklist | engine/networking/network_components.py:224-226 | the class leaves the blacklist; nothing else changes |
| NetComponents.NetworkComponent.AddToWhitelist | engine/networking/network_components.py:228-230 | the class joins the whitelist; nothing else changes |
| NetComponents.NetworkComponent.RemoveFromWhitelist | engine/networking/network_components.py:232-234 | the class leaves the whitelist; nothing else changes |
| NetComponents.NetworkComponent.CollectStates | engine/networking/network_components.py:281-285 | the loop computes the state map of the synced components |
| NetComponents.NetworkComponent.CaptureStates | engine/networking/network_components.py:274-285 | the capture is cleared, then filled from the attached actor's synced components |
| NetComponents.NetworkComponent.HasComponentsChanged | engine/networking/network_components.py:287-300 | changed exactly when there is an actor whose current states differ from the capture |
| NetComponents.NetworkComponent.CollectUpdates | engine/networking/network_components.py:308-313 | the loop lists the serialized synced components in list order |
| NetComponents.NetworkComponent.SendComponentUpdate | engine/networking/network_components.py:302-338 | nothing without an actor or a connection; otherwise the update goes to all but the owner from a server, to the server from a client |
| NetComponents.NetworkComponent.Update | engine/networking/network_components.py:256-272 | nothing when disconnected or throttled; otherwise the clock is stamped and a changed state is sent and captured |
| NetComponents.NetworkComponent.ApplyComponents | engine/networking/network_components.py:360-395 | the loop applies the entries as ApplyAll does |
| NetComponents.NetworkComponent.ApplyComponentUpdate | engine/networking/network_components.py:340-398 | corrected (Findings row 4): nothing without an actor; otherwise transform and components are applied and, when nothing raised, the capture is renewed |
| NetComponents.ParsePriority | engine/networking/network_components.py:449-453 | NetworkPriority(v) for a known value, MEDIUM where it raises |
| NetComponents.Interval | engine/networking/network_components.py:412-418 | intervals are non-negative and zero exactly for INSTANT |
| NetComponents.IntervalsOrdered | engine/networking/network_components.py:412-418 | a higher priority never waits longer |
| NetComponents.PriorityNetworkComponent.constructor | engine/networking/network_components.py:404-418 | the priority or MEDIUM, its interval, no sync yet, no forced update |
| NetComponents.PriorityNetworkComponent.ShouldSync | engine/networking/network_components.py:420-430 | due exactly when instant, forced, or the interval has passed; the force is cleared |
| NetComponents.PriorityNetworkComponent.MarkForSync | engine/networking/network_components.py:432-434 | the next check syncs; nothing else changes |
| NetComponents.PriorityNetworkComponent.OnSyncCompleted | engine/networking/network_components.py:436-438 | the last sync time becomes now; nothing else changes |
| NetComponents.PriorityNetworkComponent.DeserializeFromNetwork | engine/networking/network_components.py:447-454 | an unknown or missing priority becomes MEDIUM and a missing time 0.0; the interval is not recomputed |
| NetComponents.PriorityRoundTrip | engine/networking/network_components.py:440-454 | the priority survives serialize_for_network then deserialize_from_network |
| NetManager.Register | engine/networking/network_components.py:524-525 | registering sets both dicts at the id; a new id is appended to the insertion order, a known one keeps its place |
| NetManager.RegisterOk | engine/networking/network_components.py:524-525 | registering keeps the two dicts and the order in step |
| NetManager.Forget | engine/networking/network_components.py:571-575 | forgetting removes the id from both dicts and from the order |
| NetManager.ForgetOk | engine/networking/network_components.py:571-575 | forgetting keeps the two dicts and the order in step |
| NetManager.ForgetUndoesRegister | engine/networking/network_components.py:524-525 | forgetting an id just registered for the first time restores the registry exactly |
| NetManager.FreshNc | engine/networking/network_components.py:606-609 | the received actor's NetworkComponent has the sent id and owner and is marked spawned |
| NetManager.SyncEntries | engine/networking/network_components.py:707-714 | one full-sync entry per networked actor |
| NetManager.ReadEntry | engine/networking/network_components.py:686-690 | a full-sync entry that reads produces an actor whose component dict and list agree |
| NetManager.ReadAll | engine/networking/network_components.py:685-690 | one read result per entry, each actor consistent |
| NetManager.StepOk | engine/networking/network_components.py:685-703 | after a prefix that raised nothing, one more entry that reads is registered |
| NetManager.StepFails | engine/networking/network_components.py:685-690 | after a prefix that raised nothing, an entry that raises stops the loop with that error |
| NetManager.ReadSyncEntry | engine/networking/network_components.py:686-714 | an entry sent by _send_full_sync_to_client reads back as its id, its owner and the actor's own fields |
| NetManager.CollectSyncEntries | engine/networking/network_components.py:707-714 | the loop builds the entries of every networked actor in dict order |
| NetManager.MirrorIds | engine/networking/network_components.py:674-714 | receiving the entries of distinct registered ids mirrors exactly those ids, owners and actors |
| NetManager.FullSyncMirrors | engine/networking/network_components.py:674-721 | a full sync sent from a registry and received into an empty one reproduces its ids, order, owners and actor fields, with no error |
| NetManager.RegisteredActorIds | engine/networking/network_components.py:679-680 | the actors a full sync destroys are all registered ones, one each |
| NetManager.NetworkedActorManager.constructor | engine/networking/network_components.py:460-463 | both dicts start empty |
| NetManager.NetworkedActorManager.SpawnNetworkActor | engine/networking/network_components.py:502-549 | refused, changing nothing, when not connected; otherwise the actor is registered under its component's id and owner, added to the scene and announced (broadcast from a server, to the server from a client) |
| NetManager.NetworkedActorManager.DestroyNetworkActor | engine/networking/network_components.py:551-579 | only an actor already spawned on the network is announced, forgotten and destroyed; any other call changes nothing |
| NetManager.NetworkedActorManager.RequestFullSync | engine/networking/network_components.py:581-588 | only a client sends FULL_SYNC_REQUEST, with its client id; the registry is untouched |
| NetManager.NetworkedActorManager.HandleSpawnActor | engine/networking/network_components.py:590-625 | a missing field raises and changes nothing; a known id is ignored; a new actor that deserializes is registered, added to the scene and relayed by a server to all but the sender |
| NetManager.NetworkedActorManager.HandleDestroyActor | engine/networking/network_components.py:627-648 | raises only without network_id; a registered id is forgotten, its actor destroyed and relayed by a server; an unknown id changes nothing |
| NetManager.NetworkedActorManager.HandleComponentUpdate | engine/networking/network_components.py:650-667 | corrected (Findings row 4): a missing field raises; a tracked actor this client does not own gets the update; a server relays the message to all but the sender unless applying raised |
| NetManager.NetworkedActorManager.ApplyIfForeign | engine/networking/network_components.py:656-667 | the update reaches only a tracked actor owned by someone else, and the relay is sent only when nothing raised |
| NetManager.NetworkedActorManager.UpdateActor | engine/networking/network_components.py:656-663 | the entry under the id is replaced by the updated actor; owners and order untouched |
| NetManager.NetworkedActorManager.SendFullSyncTo | engine/networking/network_components.py:705-721 | the client receives one FULL_SYNC_DATA carrying every registered actor with its id and owner; nothing else changes |
| NetManager.NetworkedActorManager.HandleFullSyncRequest | engine/networking/network_components.py:669-672 | only a server answers, to the sender |
| NetManager.NetworkedActorManager.DestroyAll | engine/networking/network_components.py:679-680 | every registered actor is destroyed once, in registry order |
| NetManager.NetworkedActorManager.ReceiveActors | engine/networking/network_components.py:684-703 | the loop registers the received actors in order and adds them to the scene, stopping at the first that raises |
| NetManager.NetworkedActorManager.RegisterEntries | engine/networking/network_components.py:685-703 | registering the read entries in order; the first that raised stops the loop |
| NetManager.NetworkedActorManager.HandleFullSyncData | engine/networking/network_components.py:674-703 | every registered actor is destroyed, the registry cleared, then the received actors registered; a message without a dict body raises first |
| NetManager.NetworkedActorManager.HandleMessage | engine/networking/network_components.py:476-490 | exactly the five actor message types are handled here, each with the new registry, scene, destroyed list and outbox its handler gives; any other leaves the manager untouched for the original handler |
| NetManager.Updated | engine/networking/network_components.py:340-398 | corrected (Findings row 4): an update keeps the actor's id, network id, owner and policy; when nothing raised the capture is renewed, when it raised the component state is kept |
| NetManager.SpawnedNc | engine/networking/network_components.py:514-521 | the spawned component is marked spawned with the owner; an existing one is kept apart from its owner |
| NetManager.OwnerFor | engine/networking/network_components.py:508-512 | an owner that is given is kept, even an empty one; otherwise the server owns it, and a client's own id owns it on a client |
| NetManager.SpawnPayload | engine/networking/network_components.py:533-538 | the SPAWN_ACTOR data carries the network id, the owner and the serialized actor, and reading those three fields back gives them unchanged |
| NetManager.ActorsList | engine/networking/network_components.py:676 | a FULL_SYNC_DATA without an actors entry reads as no actors; an entry that fails to read is not a list |
| NetworkSync.ParseOwnership | engine/network_component.py:16-20 | NetworkOwnership(v) finds the member whose value is v and raises ValueError for anything else |
| NetworkSync.OwnershipRoundTrip | engine/network_component.py:16-20 | every ownership parses back from its value |
| NetworkSync.ServerAndClientNeverBothSend | engine/network_component.py:138-153 | a server and a client never both have authority over one object |
| NetworkSync.ClientsNeverBothSend | engine/network_component.py:147-151 | two clients with different ids never both have authority over one object |
| NetworkSync.OwnerSends | engine/network_component.py:138-153 | the side that owns an object has authority: the server for server and local objects, the owning client for client objects |
| NetworkSync.NoManagerNoAuthority | engine/network_component.py:138-153 | without a manager, or in any mode but server and client, nothing has authority |
| NetworkSync.Emit | engine/network_component.py:377-381 | at most one message, of the given type and data; it goes out only through a server in server mode or a client in client mode, to the server exactly from a client |
| NetworkSync.WireForm | engine/network_component.py:217-234 | callables and surfaces and unpicklable values are dropped; values other than Vector2, Color and Rect are stored as they are |
| NetworkSync.ComponentData | engine/network_component.py:202-236 | exactly the public, non-blacklisted, non-callable attributes other than actor and game that serialize are stored, each as its wire form |
| NetworkSync.SerializeComponent | engine/network_component.py:202-236 | the loop computes ComponentData |
| NetworkSync.ApplyValue | engine/network_component.py:292-304 | a list or tuple given for a current Vector2, Color or Rect rebuilds that kind of value, raising when it has too few items; anything else is assigned as sent |
| NetworkSync.ApplyData | engine/network_component.py:281-306 | raises exactly when one value raises; otherwise the component keeps its attributes, blacklisted or unsent ones unchanged and the others set to their applied value |
| NetworkSync.ApplyComponentData | engine/network_component.py:281-306 | the loop computes ApplyData |
| NetworkSync.WrittenStep | engine/network_component.py:286-304 | one more received value changes at most that attribute |
| NetworkSync.WireRoundTrip | engine/network_component.py:217-234 | a sent value applied to an attribute of the same kind gives back the sender's value |
| NetworkSync.ComponentSyncRoundTrip | engine/network_component.py:202-306 | receiving a component's data never raises, and every attribute both sides have takes the sender's value when it was sent and the receiver does not blacklist it, and keeps its own otherwise |
| NetworkSync.ComponentEntries | engine/network_component.py:179-198 | no blacklisted component type and no NetworkComponent is ever in the state |
| NetworkSync.ComponentEntriesFromParts | engine/network_component.py:179-198 | every entry of the state comes from a component of that class that is not excluded |
| NetworkSync.ComponentEntriesIncludes | engine/network_component.py:179-198 | a component that is not excluded and has something to send is in the state |
| NetworkSync.TagsCopy | engine/network_component.py:166 | tags.copy() succeeds exactly on a list or a dict and copies it |
| NetworkSync.ActorState | engine/network_component.py:155-200 | raises exactly when tags has no copy; the state has a components dict, and a transform exactly when sync_transform is set |
| NetworkSync.ActorStateOmitsBlacklisted | engine/network_component.py:179-198 | a blacklisted type or a NetworkComponent is never among the state's components |
| NetworkSync.ApplyTransform | engine/network_component.py:249-258 | the transform part changes only position, rotation and scale |
| NetworkSync.FirstOfType | engine/network_component.py:267-270 | the index found is the first component of that class name, and none is found only when there is none |
| NetworkSync.FindComponent | engine/network_component.py:263-270 | the search loop finds FirstOfType |
| NetworkSync.FirstIsUnique | engine/network_component.py:267-270 | the first match is fixed by where the class name first occurs |
| NetworkSync.PartChange | engine/network_component.py:263-279 | only the first component of that class is rewritten, keeping its attribute names and its blacklisted variables; a class not present is skipped |
| NetworkSync.Overlay | engine/network_component.py:260-261 | applying the entries never changes the classes or order of the components |
| NetworkSync.UpdateComponents | engine/network_component.py:260-261 | raises exactly when one entry raises; otherwise components keep their classes and order, and any component not first of a sent class is unchanged |
| NetworkSync.ApplyComponents | engine/network_component.py:260-261 | the loop computes UpdateComponents |
| NetworkSync.ApplyEntry | engine/network_component.py:260-279 | one entry raises exactly when its change fails, otherwise it extends the overlay by that name |
| NetworkSync.OverlayStep | engine/network_component.py:260-279 | one more name rewrites at most the first component of that class |
| NetworkSync.ApplyState | engine/network_component.py:238-261 | on success id, name and component classes are kept, the transform is touched only when synced, and active, enabled and tags take the sent values or their defaults |
| NetworkSync.SpawnedActorMirrorsSender | engine/network_component.py:155-261 | an actor with no components that receives a state with transform never raises and takes the sender's active, enabled, tags, position, rotation and scale |
| NetworkSync.NewSync | engine/network_component.py:35-63 | a new component: the given id, owner, ownership, transform flag and rate, nothing spawned, forced or blacklisted, empty last state |
| NetworkSync.StateOf | engine/network_component.py:155-158 | without an actor the state is {} |
| NetworkSync.Deserialized | engine/network_component.py:238-241 | without an actor nothing changes; otherwise only the actor changes |
| NetworkSync.BlacklistedVariableNeverSent | engine/network_component.py:115-119 | after blacklist_variable that variable of that type is never sent |
| NetworkSync.WhitelistUndoesBlacklistVariable | engine/network_component.py:115-128 | whitelist_variable undoes blacklist_variable, keeping the type's other blacklisted variables and the other types' |
| NetworkSync.BlacklistComponentHides | engine/network_component.py:111-123 | after blacklist_component the type is absent from the state; whitelist_component undoes it |
| NetworkSync.Spawn | engine/network_component.py:308-328 | nothing without a manager or when spawned already; otherwise marks spawned and sends only ACTOR_SPAWN messages |
| NetworkSync.Destroy | engine/network_component.py:330-346 | nothing without a manager or when not spawned; otherwise clears is_spawned and sends only ACTOR_DESTROY carrying the network id |
| NetworkSync.SpawnIsIdempotent | engine/network_component.py:308-328 | spawning twice sends once |
| NetworkSync.SpawnThenDestroy | engine/network_component.py:308-346 | a destroy after a spawn restores the state and sends as many messages as the spawn |
| NetworkSync.AddedStep | engine/network_component.py:92-99 | the component takes the actor and spawns only when it has authority |
| NetworkSync.RemovedStep | engine/network_component.py:101-109 | the actor is dropped, after a network destroy only when it has authority |
| NetworkSync.Due | engine/network_component.py:353-362 | raises exactly when not forced and sync_rate is 0; forced or dirty means due |
| NetworkSync.UpdateNeedsAuthority | engine/network_component.py:348-351 | without authority update changes nothing and sends nothing |
| NetworkSync.UpdateSendsOnlyWhenDueAndChanged | engine/network_component.py:348-388 | update changes or sends something only when due and forced or changed, and then records the state, the time, clears force and dirt and sends the state |
| NetworkSync.ForcedUpdateSends | engine/network_component.py:348-388 | a forced update with authority and a route sends the current state once |
| NetworkSync.UpdateSettles | engine/network_component.py:348-388 | a second update at the same moment with nothing changed sends nothing and changes nothing |
| NetworkSync.NetworkComponent.constructor | engine/network_component.py:35-63 | the fields are those of NewSync |
| NetworkSync.NetworkComponent.BlacklistComponent | engine/network_component.py:111-113 | the type joins the blacklist; nothing else changes |
| NetworkSync.NetworkComponent.BlacklistVariable | engine/network_component.py:115-119 | the variable joins its type's blacklist; nothing else changes |
| NetworkSync.NetworkComponent.WhitelistComponent | engine/network_component.py:121-123 | the type leaves the blacklist; nothing else changes |
| NetworkSync.NetworkComponent.WhitelistVariable | engine/network_component.py:125-128 | the variable leaves its type's blacklist; nothing else changes |
| NetworkSync.NetworkComponent.ForceSyncNextUpdate | engine/network_component.py:130-132 | force_sync is set; nothing else changes |
| NetworkSync.NetworkComponent.MarkComponentDirty | engine/network_component.py:134-136 | the type is marked dirty; nothing else changes |
| NetworkSync.NetworkComponent.SerializeComponents | engine/network_component.py:179-198 | the loop computes the components part of the state |
| NetworkSync.NetworkComponent.SerializeActorState | engine/network_component.py:155-200 | the state is StateOf of the fields |
| NetworkSync.NetworkComponent.DeserializeActorState | engine/network_component.py:238-261 | raises exactly when Deserialized does, and then changes nothing |
| NetworkSync.NetworkComponent.SpawnOnNetwork | engine/network_component.py:308-328 | the fields and messages are those of Spawn; a raise changes nothing |
| NetworkSync.NetworkComponent.DestroyOnNetwork | engine/network_component.py:330-346 | the fields and messages are those of Destroy |
| NetworkSync.NetworkComponent.Hook | engine/network_component.py:92-99 | the fields and messages are those of AddedStep |
| NetworkSync.NetworkComponent.Unhook | engine/network_component.py:101-109 | the fields and messages are those of RemovedStep |
| NetworkSync.NetworkComponent.Update | engine/network_component.py:348-388 | the fields and messages are those of the update step; a raise changes nothing |
| NetworkSync.NetworkComponent.SyncIfChangedNow | engine/network_component.py:362-388 | the sending half of update, as SyncIfChanged; a raise changes nothing |
| NetworkSyncRegistry.LookupId | engine/network_component.py:393-394 | message.data.get('network_id') succeeds only on a dict, and a found id is the one the data names |
| NetworkSyncRegistry.Known | engine/network_component.py:393-395 | a known id is registered and named by the data |
| NetworkSyncRegistry.Relay | engine/network_component.py:403-404 | the server relays one message of the same type and data to every client but the sender, and nothing without a server |
| NetworkSyncRegistry.Attach | engine/network_component.py:92-99 | on_added registers the component under its network_id with the actor, changing no other entry |
| NetworkSyncRegistry.Detach | engine/network_component.py:101-109 | on_removed unregisters the network_id and drops the actor; a spawned component with authority is no longer spawned |
| NetworkSyncRegistry.ActorOf | engine/network_component.py:494-498 | an unregistered id finds no actor |
| NetworkSyncRegistry.AttachThenFind | engine/network_component.py:92-99 | after on_added get_networked_actor finds the actor under the component's network_id |
| NetworkSyncRegistry.DetachThenFind | engine/network_component.py:101-109 | after on_removed the network_id finds nothing and every other id finds what it found before |
| NetworkSyncRegistry.AttachDetachKeepKeys | engine/network_component.py:92-109 | registering and unregistering keep every component under its own network_id |
| NetworkSyncRegistry.SpawnNetworked | engine/network_component.py:486-491 | spawn_networked_actor registers a new component with the given owner and ownership on the actor |
| NetworkSyncRegistry.ServerSpawnBroadcasts | engine/network_component.py:92-99 | a server-owned actor spawned on a server is marked spawned and broadcast once as ACTOR_SPAWN |
| NetworkSyncRegistry.InstalledHandlers | engine/network_component.py:66-90 | handlers for sync, spawn and destroy are installed exactly when the mode's server or client exists, server-side ones exactly in server mode |
| NetworkSyncRegistry.Applied | engine/network_component.py:396-400 | a received state changes only the component under that id, and nothing when it raises |
| NetworkSyncRegistry.SyncServerTarget | engine/network_component.py:390-404 | a sync reaches only a registered component, from data carrying actor_state |
| NetworkSyncRegistry.SyncClientTarget | engine/network_component.py:407-416 | a sync reaches only a registered component, from data carrying actor_state |
| NetworkSyncRegistry.SpawnServer | engine/network_component.py:419-423 | the server only relays the spawn to every client but the sender |
| NetworkSyncRegistry.SpawnClientPlan | engine/network_component.py:426-457 | a new id is registered with the sent owner and ownership, defaulting to server, on a fresh actor, spawned |
| NetworkSyncRegistry.Spawned | engine/network_component.py:446-457 | the new component is registered under its id, no other entry changes |
| NetworkSyncRegistry.DestroyServer | engine/network_component.py:460-472 | the server's registry is untouched by a destroy |
| NetworkSyncRegistry.DestroyClientTarget | engine/network_component.py:475-483 | a destroy reaches only a registered component with an actor; an ignored message raises exactly when the id lookup raises |
| NetworkSyncRegistry.SyncServerOwnerOnly | engine/network_component.py:390-404 | the server's state changes only for a sync from the owner the component names |
| NetworkSyncRegistry.SyncServerAppliesOwnerUpdate | engine/network_component.py:390-404 | the owner's sync is applied and relayed to everyone but the owner |
| NetworkSyncRegistry.SyncClientKeepsOwnObjects | engine/network_component.py:407-416 | a client never overwrites an object it has authority over |
| NetworkSyncRegistry.SpawnClientIgnoresKnown | engine/network_component.py:431-433 | a spawn for an id already registered is ignored |
| NetworkSyncRegistry.SpawnClientRegisters | engine/network_component.py:426-457 | a spawn that changes anything registers a new id with the sent owner and ownership, spawned, on the new actor, and sends nothing |
| NetworkSyncRegistry.DestroyServerOwnerOnly | engine/network_component.py:460-472 | a destroy is forwarded only from the owner |
| NetworkSyncRegistry.DestroyClientRemoves | engine/network_component.py:475-483 | a destroy for a registered component with an actor unregisters it and destroys that actor |
| NetworkSyncRegistry.SyncKeepsKeys | engine/network_component.py:390-416 | both sync handlers keep every component under its own network_id |
| NetworkSyncRegistry.SpawnKeepsKeys | engine/network_component.py:419-457 | both spawn handlers keep every component under its own network_id |
| NetworkSyncRegistry.DestroyKeepsKeys | engine/network_component.py:460-483 | both destroy handlers keep every component under its own network_id |
| NetworkSyncRegistry.NetworkedActors.constructor | engine/network_component.py:30-31 | the registry starts empty, without a manager |
| NetworkSyncRegistry.NetworkedActors.SetNetworkManager | engine/network_component.py:66-90 | only the manager changes, and the handlers installed are InstalledHandlers |
| NetworkSyncRegistry.NetworkedActors.OnAdded | engine/network_component.py:92-99 | the component is registered under its id, and the registry is as Attach says |
| NetworkSyncRegistry.NetworkedActors.OnRemoved | engine/network_component.py:101-109 | registry and component are as Detach says |
| NetworkSyncRegistry.NetworkedActors.SpawnNetworkedActor | engine/network_component.py:486-491 | a fresh component, and the registry as SpawnNetworked says |
| NetworkSyncRegistry.NetworkedActors.GetNetworkedActor | engine/network_component.py:494-498 | the actor registered under the id, if any |
| NetworkSyncRegistry.NetworkedActors.ApplyStateAt | engine/network_component.py:396-400 | the registry as Applied says |
| NetworkSyncRegistry.NetworkedActors.HandleActorSyncServer | engine/network_component.py:390-404 | the registry and outbox as SyncServer says |
| NetworkSyncRegistry.NetworkedActors.HandleActorSyncClient | engine/network_component.py:407-416 | the registry as SyncClient says |
| NetworkSyncRegistry.NetworkedActors.HandleActorSpawnServer | engine/network_component.py:419-423 | the outbox as SpawnServer says |
| NetworkSyncRegistry.NetworkedActors.HandleActorSpawnClient | engine/network_component.py:426-457 | the registry as SpawnClient says |
| NetworkSyncRegistry.NetworkedActors.SpawnComponent | engine/network_component.py:446-457 | the registry as Spawned says |
| NetworkSyncRegistry.NetworkedActors.HandleActorDestroyServer | engine/network_component.py:460-472 | the outbox as DestroyServer says |
| NetworkSyncRegistry.NetworkedActors.HandleActorDestroyClient | engine/network_component.py:475-483 | the registry and destroyed actors as DestroyClient says |
| Networking.ParseType | engine/networking.py:25-51 | MessageType(s) finds the member whose value is s, and only that one; None where Python raises ValueError |
| Networking.NewMessage | engine/networking.py:57-63 | the constructor keeps type, data and sender, replaces a falsy timestamp by the clock and takes a fresh id |
| Networking.ToDict | engine/networking.py:65-73 | to_dict has exactly the keys type, data, sender_id, timestamp and id |
| Networking.FromDict | engine/networking.py:76-83 | from_dict succeeds exactly on a dict with a known string type and a data entry, keeping type and data and taking a fresh id |
| Networking.MessageRoundTrip | engine/networking.py:65-83 | from_dict(to_dict(m)) gives m back with a new id when its timestamp is truthy |
| Networking.ZeroTimestampIsRestamped | engine/networking.py:61 | a message stamped 0.0 comes back stamped with the receiver's clock |
| Networking.SendOn | engine/networking.py:161-164 | a connected client's queue gains the message; a disconnected one is unchanged |
| Networking.Disconnected | engine/networking.py:166-173 | no longer connected, with the shutdown signal queued |
| Networking.BroadcastTo | engine/networking.py:477-481 | a broadcast keeps the set of connections |
| Networking.BroadcastReaches | engine/networking.py:477-481 | every registered client except the excluded one is sent the message; the excluded one is not |
| Networking.BroadcastSkipsStrangers | engine/networking.py:477-481 | a connection that is not a registered client receives nothing |
| Networking.DisconnectAll | engine/networking.py:302-306 | every registered client connection is disconnected, the others are left alone |
| Networking.PingStale | engine/networking.py:506-511 | exactly the clients silent for more than five seconds are sent a ping |
| Networking.DropAsWritten | engine/networking.py:412-420 | as written, the entry under the connection's current client_id is removed |
| Networking.RenamedClientIsNeverDropped | engine/networking.py:379-420 | a client registered under one id that then claimed another is still registered after it disconnects |
| Networking.DropConnection | engine/networking.py:412-420 | corrected: exactly the entries pointing at the connection are removed, the rest kept |
| Networking.DropFreesOneSlot | engine/networking.py:412-420 | dropping a registered connection frees exactly one slot |
| Networking.NetworkManager.constructor | engine/networking.py:179-206 | no role, four players, not running, no clients or connections |
| Networking.NetworkManager.IsConnected | engine/networking.py:219-225 | never connected without a role; a server is connected exactly while running |
| Networking.NetworkManager.SetMaxPlayers | engine/networking.py:227-229 | only max_players changes |
| Networking.NetworkManager.Host | engine/networking.py:231-257 | hosting succeeds exactly when there was no role and the socket binds; then the manager is a running server, otherwise unchanged |
| Networking.NetworkManager.Connect | engine/networking.py:259-293 | connecting succeeds exactly when there was no role and the server was reached; then a running client whose server connection carries the connect request |
| Networking.NetworkManager.Disconnect | engine/networking.py:295-329 | a no-op unless running; a server disconnects every client and forgets them, a client tells the server and closes; the role ends as NONE |
| Networking.NetworkManager.AcceptConnection | engine/networking.py:331-352 | a connection is registered under a fresh id exactly when the server has room, and the client count stays within max_players - 1 |
| Networking.NetworkManager.HandleMessage | engine/networking.py:354-377 | only connect requests, disconnects, pings and pongs change the manager's state: a connect request renames and answers the sender on a server, a disconnect drops the named registered client, a ping is answered with a pong carrying its timestamp, a pong records the time |
| Networking.NetworkManager.HandleConnectRequest | engine/networking.py:379-404 | a server renames the sender to the claimed id and answers with a connect response; the clients dict keeps the old key |
| Networking.NetworkManager.HandleDisconnect | engine/networking.py:406-410 | corrected (Findings row 5): the named client, when registered, is dropped; otherwise nothing changes |
| Networking.NetworkManager.OnClientDisconnected | engine/networking.py:412-420 | corrected: every entry for the connection is removed |
| Networking.NetworkManager.HandlePing | engine/networking.py:459-462 | the sender is answered with a pong carrying the ping's timestamp |
| Networking.NetworkManager.HandlePong | engine/networking.py:464-466 | only the sender's last ping time changes, to now |
| Networking.NetworkManager.BroadcastMessage | engine/networking.py:477-484 | a server sends to every client but the excluded one, a client to its server, no role sends nothing |
| Networking.NetworkManager.SendToServer | engine/networking.py:486-489 | only a client with a server connection sends |
| Networking.NetworkManager.SendToClient | engine/networking.py:491-494 | only a server sends, and only to a registered id |
| Networking.NetworkManager.Update | engine/networking.py:496-518 | nothing happens faster than update_rate; otherwise the update time is recorded, a server pings stale clients, a client pings a stale server, and nothing else changes |
| Networking.ClaimedId | engine/networking.py:384-385 | the client_id of the data when it is a non-empty string |
| Networking.RenameThenDisconnectLeaksSlot | engine/networking.py:379-420 | after a rename, the as-written drop keeps the accepted entry while the corrected drop frees it |
| NetworkUtils.SceneChangeMessage | engine/network_utils.py:31-36 | a SCENE_CHANGE message carrying only the scene name |
| NetworkUtils.SceneChangedEvents | engine/network_utils.py:45-52 | nothing without a game; otherwise the scene is loaded first, and a full sync is requested exactly on a client |
| NetworkUtils.OnlyClientsResync | engine/network_utils.py:45-52 | a server or a manager without a role never asks for a full sync after a scene change |
| NetworkUtils.NetworkedSceneManager.constructor | engine/network_utils.py:15-20 | the manager and game are kept and no scene event has happened |
| NetworkUtils.NetworkedSceneManager.ChangeSceneNetworked | engine/network_utils.py:22-43 | succeeds exactly for a connected server; a refusal changes nothing, success broadcasts the scene change to every client and loads it locally when there is a game |
| NetworkUtils.NetworkedSceneManager.OnSceneChanged | engine/network_utils.py:45-52 | the events are those SceneChangedEvents lists |
| NetworkUtils.Put | engine/network_utils.py:91-94 | players[id] = d keeps the roster consistent, and an existing player keeps its place |
| NetworkUtils.PlayerList | engine/network_utils.py:82-87 | every player is listed and nothing else, apart from "server", which closes the list exactly on a server |
| NetworkUtils.SetPlayerData | engine/network_utils.py:89-94 | set_player_data keeps the roster consistent |
| NetworkUtils.PlayerJoined | engine/network_utils.py:100-107 | a connected client gets an entry whose id is its own |
| NetworkUtils.PlayerLeft | engine/network_utils.py:109-113 | a disconnected client's entry goes, and an unknown id changes nothing |
| NetworkUtils.CountMatchesList | engine/network_utils.py:66-87 | on a server or a client the player list is as long as get_player_count says |
| NetworkUtils.SetThenGet | engine/network_utils.py:89-98 | merging keeps the keys the new data does not mention and takes those it does; a new player gets the data as given |
| NetworkUtils.SetKeepsOthers | engine/network_utils.py:89-94 | set_player_data leaves every other player as it was |
| NetworkUtils.ConnectThenDisconnect | engine/network_utils.py:100-113 | a client that connects and disconnects leaves the roster as it found it |
| NetworkUtils.ConnectCounts | engine/network_utils.py:66-107 | a new client raises the count by one on a server or a client |
| NetworkUtils.ServerListedOnlyOnServer | engine/network_utils.py:82-87 | "server" is listed exactly on a server, unless a player is called "server" |
| NetworkUtils.PlayerManager.constructor | engine/network_utils.py:58-64 | no players yet |
| NetworkUtils.PlayerManager.GetPlayerCount | engine/network_utils.py:66-72 | players plus one on a server, the players on a client, 0 otherwise |
| NetworkUtils.PlayerManager.IsRoomFull | engine/network_utils.py:78-80 | full exactly when the count reaches max_players |
| NetworkUtils.PlayerManager.GetPlayerList | engine/network_utils.py:82-87 | the list PlayerList describes |
| NetworkUtils.PlayerManager.SetPlayerDataOf | engine/network_utils.py:89-94 | the roster becomes SetPlayerData of the old one |
| NetworkUtils.PlayerManager.GetPlayerData | engine/network_utils.py:96-98 | the player's data exactly when the player is known |
| NetworkUtils.PlayerManager.OnClientConnected | engine/network_utils.py:100-107 | the roster becomes PlayerJoined of the old one |
| NetworkUtils.PlayerManager.OnClientDisconnected | engine/network_utils.py:109-113 | the roster becomes PlayerLeft of the old one |
| NetworkUtils.ConnectedClients | engine/network_utils.py:148 | the number of clients on a server, 1 anywhere else |
| NetworkUtils.NetworkOptimizer.constructor | engine/network_utils.py:119-131 | counters at zero, compression off, delta compression on |
| NetworkUtils.NetworkOptimizer.EnableCompression | engine/network_utils.py:133-135 | only the compression flag changes |
| NetworkUtils.NetworkOptimizer.EnableDeltaCompression | engine/network_utils.py:137-139 | only the delta compression flag changes |
| NetworkUtils.NetworkOptimizer.GetNetworkStats | engine/network_utils.py:141-151 | the statistics report the role, the connection, the connected clients and the counters as they are |
| NetworkUtils.NetworkOptimizer.OptimizeMessage | engine/network_utils.py:153-163 | the message comes back unchanged whatever the flags, as both passes are placeholders |
| NetworkUtils.NetworkOptimizer.CompressMessage | engine/network_utils.py:165-169 | the message comes back unchanged |
| NetworkUtils.NetworkOptimizer.DeltaCompressComponents | engine/network_utils.py:171-175 | the message comes back unchanged |
| NetworkUtils.PySuffix | engine/network_utils.py:205 | Python's s[-n:]: the last n items for positive n, the whole list for 0, all but the first -n for negative n |
| NetworkUtils.Logged | engine/network_utils.py:186-201 | the entry is appended and the log cut to a suffix; with a positive bound it keeps at most that many newest entries |
| NetworkUtils.LogStaysBounded | engine/network_utils.py:199-201 | with a positive bound the log never grows past it and the newest entry is last |
| NetworkUtils.ZeroBoundKeepsAll | engine/network_utils.py:199-201 | a bound of 0 keeps every entry, since s[-0:] is the whole list |
| NetworkUtils.Recent | engine/network_utils.py:203-205 | a positive count gives the last count entries, or all when fewer |
| NetworkUtils.RecentZeroIsWholeLog | engine/network_utils.py:203-205 | get_recent_messages(0) gives the whole log, not an empty list |
| NetworkUtils.Stats | engine/network_utils.py:207-222 | {} exactly for an empty log; otherwise the total and the average size over all entries |
| NetworkUtils.SentAndReceivedApart | engine/network_utils.py:212-213 | an entry is counted as sent or as received, never both |
| NetworkUtils.StatsConsistent | engine/network_utils.py:207-222 | sent plus received never exceeds the total, and average times total is the total size |
| NetworkUtils.RecentRate | engine/network_utils.py:232-237 | a rate exists only for at least 50 entries spanning some time |
| NetworkUtils.Diagnose | engine/network_utils.py:224-251 | at most one issue of each of the four kinds |
| NetworkUtils.DiagnoseNotConnected | engine/network_utils.py:228-229 | the missing connection is reported exactly when there is none |
| NetworkUtils.DiagnoseLarge | engine/network_utils.py:240-243 | large messages among the last 50 are reported, with their number, exactly when there are some |
| NetworkUtils.DiagnoseRate | engine/network_utils.py:231-238 | a high rate is reported exactly when the last 50 entries came at more than 100 a second |
| NetworkUtils.DiagnosePing | engine/network_utils.py:245-249 | a high ping is reported exactly when the last ping is more than ten seconds old |
| NetworkUtils.DiagnoseParts | engine/network_utils.py:224-251 | every issue in the report is there exactly when its condition holds |
| NetworkUtils.DiagnosePingOnlyClient | engine/network_utils.py:245-249 | only a client with a server connection can be told its ping is high |
| NetworkUtils.NetworkDebugger.constructor | engine/network_utils.py:181-184 | an empty log bounded at 1000 |
| NetworkUtils.NetworkDebugger.LogMessage | engine/network_utils.py:186-201 | the log becomes Logged of the old one with the new entry; the bound is kept |
| NetworkUtils.NetworkDebugger.GetRecentMessages | engine/network_utils.py:203-205 | the entries Recent gives |
| NetworkUtils.NetworkDebugger.GetMessageStats | engine/network_utils.py:207-222 | the statistics Stats gives |
| NetworkUtils.NetworkDebugger.DiagnoseConnectionIssues | engine/network_utils.py:224-251 | at most four issues; the connection issue exactly when disconnected; a ping issue only on a client |
| NetworkUtils.PriorityFor | engine/network_utils.py:277-280 | the registered priority, MEDIUM for an unregistered event type |
| NetworkUtils.Registered | engine/network_utils.py:261-275 | the event type is registered with the given priority or MEDIUM, and no other type changes |
| NetworkUtils.CommonHandlers | engine/network_utils.py:301-334 | chat is instant, game events and player actions high, lobby updates medium |
| NetworkUtils.RegisterKeepsOthers | engine/network_utils.py:261-275 | registering one event type changes the priority of no other |
| NetworkUtils.CustomMessageHelper.constructor | engine/network_utils.py:257-259 | nothing registered, nothing sent |
| NetworkUtils.CustomMessageHelper.RegisterHandler | engine/network_utils.py:261-275 | the registry becomes Registered of the old one; nothing is sent |
| NetworkUtils.CustomMessageHelper.Send | engine/network_utils.py:277-287 | one custom message is sent at the type's priority, and the registry is unchanged |
| NetworkUtils.CustomMessageHelper.BroadcastChat | engine/network_utils.py:289-291 | one chat message carrying the text, at chat's priority |
| NetworkUtils.CustomMessageHelper.BroadcastGameEvent | engine/network_utils.py:293-295 | one game_event message carrying the name and data |
| NetworkUtils.CustomMessageHelper.BroadcastPlayerAction | engine/network_utils.py:297-299 | one player_action message carrying the action and data, from the player |
| NetworkUtils.CustomMessageHelper.SetupCommonHandlers | engine/network_utils.py:301-334 | the registry becomes CommonHandlers of the old one; nothing is sent |
| CoreActor.DecodeTagged | engine/core/actor.py:173-179 | a Vector2, Color or Rect comes only from the matching __type__ tag, and any other tag gives None |
| CoreActor.EncodeTIsJson | engine/core/actor.py:138-167 | whatever the attribute holds, its encoding is something json can carry |
| CoreActor.DecodeEncodeT | engine/core/actor.py:138-185 | decoding the encoding of a value built from plain data, vectors, colours, rects, lists and dicts without a __type__ key gives the value back |
| CoreActor.DecodeEncodeVec2 | engine/core/actor.py:146-147 | a Vector2 survives the trip |
| CoreActor.DecodeEncodeColor | engine/core/actor.py:148-149 | a Color survives the trip |
| CoreActor.DecodeEncodeRect | engine/core/actor.py:150-151 | a Rect survives the trip |
| CoreActor.DecodeEncodeList | engine/core/actor.py:152-153 | a list survives when its items do |
| CoreActor.DecodeEncodeDict | engine/core/actor.py:154-155 | a dict without a __type__ key survives when its values do |
| CoreActor.TupleComesBackAsList | engine/core/actor.py:152-153 | a tuple comes back as a list |
| CoreActor.UserTypeKeyIsMisread | engine/core/actor.py:173-179 | a user dict carrying an unknown __type__ comes back as None |
| CoreActor.SerializeForNetwork | engine/core/actor.py:103-120 | only public attributes other than actor whose encoding is not None are sent, each as json-safe data, and every such attribute is sent |
| CoreActor.DeserializeFromNetwork | engine/core/actor.py:122-136 | no attribute is added, and unsent, private and actor attributes are kept |
| CoreActor.SyncReplicates | engine/core/actor.py:103-136 | a replica that applies the owner's serialization holds the owner's value for every attribute sent and keeps its own for the rest |
| CoreActor.NoComponents | engine/core/actor.py:214-215 | an actor starts with an empty dict and list of components |
| CoreActor.DeleteComponent | engine/core/actor.py:271-279 | the component of that type is returned and removed from dict and list, and None comes back with nothing changed when there is none; other types are untouched |
| CoreActor.InsertComponent | engine/core/actor.py:261-269 | the new component replaces any of its type and goes to the end of the list; other types are untouched |
| CoreActor.LookupComponent | engine/core/actor.py:281-283 | a component is found exactly when one of that type is attached, and it is that one |
| CoreActor.AddThenGet | engine/core/actor.py:261-283 | after add_component(c), get_component and remove_component of its type give c, whatever was there |
| CoreActor.InsertTag | engine/core/actor.py:289-292 | the tags become the old ones plus the new one, without duplicates |
| CoreActor.DeleteTag | engine/core/actor.py:294-297 | the tags lose exactly that one |
| CoreActor.CalculateWorldWithoutParent | engine/core/actor.py:34-61 | without a parent a dirty transform gets world equal to local and is clean; a clean one is unchanged |
| CoreActor.CalculateWorldIdempotent | engine/core/actor.py:34-61 | recalculating a clean transform changes nothing |
| CoreActor.Transform.constructor | engine/core/actor.py:18-28 | world equals local, and the transform is dirty |
| CoreActor.Transform.MarkDirty | engine/core/actor.py:30-32 | only the dirty flag is set |
| CoreActor.Transform.CalculateWorldTransform | engine/core/actor.py:34-61 | the fields become CalculateWorldWithoutParent of the old ones |
| CoreActor.Wipe | engine/core/actor.py:368-384 | destroy keeps name and tags, drops every component and deactivates |
| CoreActor.TaggedAmongIsTagged | engine/core/actor.py:252-259 | everything find_children_with_tag returns is tagged, and every tagged child is returned |
| CoreActor.TaggedAmongExactly | engine/core/actor.py:252-259 | an actor is returned exactly when it lies below the children within the depth bound and carries the tag |
| CoreActor.FindsAllTaggedDescendants | engine/core/actor.py:252-259 | on a hierarchy shallower than the bound, every tagged descendant at any depth is returned |
| CoreActor.ChildrenKnowParent | engine/core/actor.py:230-243 | every listed child of an actor has it as parent |
| CoreActor.DestroyAttachedStep | engine/core/actor.py:368-384 | destroy on an attached actor: detaching it from its parent and then destroying the rest prunes its subtree |
| CoreActor.World.constructor | engine/core/actor.py:196-223 | no actors yet |
| CoreActor.World.NewActor | engine/core/actor.py:202-223 | a new actor has no parent, no children, no components, no tags, is active, and is named Actor_ and eight uuid characters when no name is given |
| CoreActor.World.AddChild | engine/core/actor.py:230-236 | the child leaves its old parent and is appended to the new one's list, and only that parent lists it |
| CoreActor.World.RemoveChild | engine/core/actor.py:238-243 | only a current child is removed from the list and loses its parent; otherwise nothing changes |
| CoreActor.World.FindChild | engine/core/actor.py:245-250 | the first child with that name, or None when no child has it |
| CoreActor.World.FindChildrenWithTag | engine/core/actor.py:252-259 | the loop computes TaggedAmong, which TaggedAmongExactly characterises |
| CoreActor.World.AddComponent | engine/core/actor.py:261-269 | the actor's components become InsertComponent of the old ones |
| CoreActor.World.RemoveComponent | engine/core/actor.py:271-279 | the actor's components become DeleteComponent of the old ones, which also gives the result |
| CoreActor.World.HasComponent | engine/core/actor.py:285-287 | true exactly when a component of that type is attached |
| CoreActor.World.AddTag | engine/core/actor.py:289-292 | the actor's tags become InsertTag of the old ones |
| CoreActor.World.RemoveTag | engine/core/actor.py:294-297 | the actor's tags become DeleteTag of the old ones |
| CoreActor.World.HasTag | engine/core/actor.py:299-301 | true exactly when the tag is present |
| CoreActor.World.Destroy | engine/core/actor.py:368-384 | the actor is detached, every descendant destroyed and unlinked, the actor wiped, and everything outside its subtree kept |
| CoreActor.World.DestroyAttached | engine/core/actor.py:368-384 | destroy on an attached actor prunes its subtree and keeps everything else |
| CoreActor.World.DestroyChildren | engine/core/actor.py:368-384 | the loop over the children destroys each one and leaves the list empty |
| CoreActor.World.DestroyChild | engine/core/actor.py:375-376 | one turn of the loop destroys the first child still listed |
| CoreActor.World.Deactivate | engine/core/actor.py:378-384 | the end of destroy: components dropped and the actor deactivated |
| EngineActor.Component.constructor | engine/component/component.py:11-13 | a new component is enabled and attached to no actor |
| EngineActor.FirstInstance | engine/actor/actor.py:28-31 | the first component that is an instance of the class, and none only when no component is |
| EngineActor.Actor.constructor | engine/actor/actor.py:4-8 | the given name, no tags, no components |
| EngineActor.Actor.SetName | engine/actor/actor.py:10-12 | only the name changes |
| EngineActor.Actor.AddComponent | engine/actor/actor.py:14-18 | a component already present fails the assert and changes nothing; otherwise it is attached to the actor and appended |
| EngineActor.Actor.RemoveComponent | engine/actor/actor.py:20-24 | only a present component is removed, its first occurrence, and detached; otherwise nothing changes |
| EngineActor.Actor.GetComponent | engine/actor/actor.py:26-31 | a component that is an instance of the class, and null only when there is none |
| EngineActor.Actor.AddTag | engine/actor/actor.py:33-35 | the tag set gains the tag |
| EngineActor.Actor.RemoveTag | engine/actor/actor.py:37-39 | the tag set loses the tag, and an absent tag is no error |
| EngineActor.Actor.Active | engine/actor/actor.py:41-60 | the components updated and rendered are exactly the enabled ones |
| EngineActor.EnabledOf | engine/actor/actor.py:44-46 | exactly the enabled components, never more than there are |
| WorldComponent.FirstMatch | engine/core/world/component.py:71-73 | the first registry entry whose type the value is an instance of, and none only when there is none |
| WorldComponent.FirstNamed | engine/core/world/component.py:85-87 | the first registry entry with the given type name, and none only when there is none |
| WorldComponent.SerializeValue | engine/core/world/component.py:69-79 | a registered type is tagged with its name and to_json value; a component becomes None; a plain value stays; anything else becomes str |
| WorldComponent.DeserializeValue | engine/core/world/component.py:81-88 | untagged data, or a tag no entry is named after, comes back unchanged |
| WorldComponent.ValueRoundTrip | engine/core/world/component.py:69-88 | with distinct type names and codecs that read back what they write, a registered or plain value survives the trip |
| WorldComponent.Serialize | engine/core/world/component.py:90-111 | module and type are always written and actor never; exactly the attributes selected by include and exclude are written, each through its custom or default codec |
| WorldComponent.StepFor | engine/core/world/component.py:116-124 | type and module are skipped; a custom-marked value without from_json is skipped; anything else is set to its decoded value or raises |
| WorldComponent.Deserialize | engine/core/world/component.py:113-125 | raises exactly when one value raises; otherwise unsent attributes are kept, sent values set, skipped ones kept, and nothing else appears |
| WorldComponent.DeserializeIgnoresClassKeys | engine/core/world/component.py:116-118 | "type" and "module" in the data are never written into the component |
| WorldComponent.SerializeThenDeserialize | engine/core/world/component.py:90-125 | with plain attributes, no custom codec and an empty registry, a fresh instance reading the data gets every serialized attribute back |
| WorldComponent.CreateFromData | engine/core/world/component.py:128-158 | a missing type or module, a module that is not a string or does not import, or a class that is not a Component, raises ValueError; a type that is not a string raises TypeError exactly when its module imports; a result is of the class the data names |
| WorldComponent.CreateFromOwnData | engine/core/world/component.py:90-158 | a component rebuilt from its own dictionary is of the same class |
| WorldActor.NewTransform | engine/core/world/actor.py:4-7 | a new transform sits at (0, 0), rotation 0, scale (1, 1) |
| WorldActor.NewActorData | engine/core/world/actor.py:39-49 | a new actor has the name, no tags, no components, a new transform and no pending relationships |
| WorldActor.TransformData | engine/core/world/actor.py:21-27 | serialize writes exactly position, rotation and scale |
| WorldActor.TransformFromAsWritten | engine/core/world/actor.py:29-36 | as written deserialize always raises TypeError, since Transform() takes no keyword arguments |
| WorldActor.VecOf | engine/core/world/actor.py:33-35 | tuple(v) of a Vector2 gives its two coordinates |
| WorldActor.TransformFrom | engine/core/world/actor.py:29-36 | corrected: empty data gives the default transform |
| WorldActor.TransformRoundTrip | engine/core/world/actor.py:21-36 | the corrected deserialize reads back exactly what serialize wrote |
| WorldActor.WithoutComp | engine/core/world/actor.py:76-77 | components.remove(c) removes the first entry with that identity |
| WorldActor.AddOne | engine/core/world/actor.py:62-67 | the assert refuses a component already in the list and changes nothing; otherwise it is appended, attached to the actor and started, and no other owner changes |
| WorldActor.AddMany | engine/core/world/actor.py:69-72 | when every call succeeds the components are the old ones followed by the new |
| WorldActor.AttachedOwners | engine/core/world/actor.py:62-72 | after the calls exactly the added components belong to the actor and the others are as they were |
| WorldActor.AddManyDistinct | engine/core/world/actor.py:69-72 | adding components that are new and distinct never fails: each is appended, attached and started, in order |
| WorldActor.FirstOfName | engine/core/world/actor.py:84 | a component found has that class name, and none is found only when no component has it |
| WorldActor.FirstInstance | engine/core/world/actor.py:89-91 | a component found is an instance of the class, and none is found only when none is |
| WorldActor.GetComponentIn | engine/core/world/actor.py:80-96 | by name: the first component of that class name, None for an empty name; by class: the first instance, else issubclass raises exactly when inheritance is allowed and there are components |
| WorldActor.EnabledInOrder | engine/core/world/actor.py:142-191 | the update, physics, late update and render passes reach exactly the enabled components |
| WorldActor.EventReach | engine/core/world/actor.py:272-279 | the event stops at the first enabled component that handles it, which is reported as handled; otherwise every enabled component sees it |
| WorldActor.ScreenPosition | engine/core/world/actor.py:54-56 | raises without a scene; otherwise the position minus the world offset |
| WorldActor.StrSet | engine/core/world/actor.py:214 | set() of a list of strings holds exactly those strings |
| WorldActor.TagSet | engine/core/world/actor.py:214 | set(tags) of a list is the set of its strings |
| WorldActor.NamedAndTagged | engine/core/world/actor.py:213-214 | deserialize sets the name and the tags, defaulting to Actor and none |
| WorldActor.ComponentsNeverLoad | engine/core/world/actor.py:215 | as written any data with a component raises, because Component.deserialize is called unbound, and the components are kept |
| WorldActor.CreateAll | engine/core/world/actor.py:238-240 | each component dict is built by createFromData, numbered in order |
| WorldActor.Load | engine/core/world/actor.py:210-219 | corrected: name and tags as sent, components built from the list, the parent and children names stored for later; the transform is kept |
| WorldActor.NameMap | engine/core/world/actor.py:250 | the name map sends a name to an actor that has it, and every actor's name is in it |
| WorldActor.Wanted | engine/core/world/actor.py:254-257 | a parent is wanted exactly when the stored name is truthy and names an actor |
| WorldActor.Cleared | engine/core/world/actor.py:265-270 | the stored names go and nothing else changes |
| WorldActor.World.constructor | engine/core/world/actor.py:38-52 | no actors and no components yet |
| WorldActor.World.NewActor | engine/core/world/actor.py:39-52 | Actor(name, components): a fresh actor, then addComponent for each component as AddMany says |
| WorldActor.Built | engine/core/world/actor.py:233-235 | the components built before the first that raises, each what createFromData returns for its record, and the next one raises; all of them exactly when the whole list loads |
| WorldActor.BuiltAll | engine/core/world/actor.py:233-235 | every component is built exactly when the whole list loads, and then the built components are the loaded list |
| WorldActor.Started | engine/core/world/actor.py:225-236 | none when the tags raise; after a load that does not raise, exactly the loaded components |
| WorldActor.World.CreateFromSerializedData | engine/core/world/actor.py:221-241 | a load that raises returns no actor and leaves the arena as it was, though the components added before the raise stay attached and started; otherwise a new actor with what Load reads, its components attached and started |
| WorldActor.World.SetName | engine/core/world/actor.py:58-60 | only the name changes |
| WorldActor.World.AddComponent | engine/core/world/actor.py:62-67 | the assert refuses a component already in the list; otherwise it is appended, attached and started, as AddOne says |
| WorldActor.World.AddComponents | engine/core/world/actor.py:69-72 | the components and owners become those AddMany gives |
| WorldActor.World.RemoveComponent | engine/core/world/actor.py:74-78 | only an attached component is removed and detached; otherwise nothing changes |
| WorldActor.World.AddTag | engine/core/world/actor.py:98-100 | the tag set gains the tag; nothing else changes |
| WorldActor.World.RemoveTag | engine/core/world/actor.py:102-104 | the tag set loses the tag, an absent tag is no error; nothing else changes |
| WorldActor.World.SetParent | engine/core/world/actor.py:106-117 | the actor leaves its old parent's list; a new parent lists it, and only that one |
| WorldActor.World.AddChild | engine/core/world/actor.py:119-121 | the child's parent becomes this actor, and only this actor lists it |
| WorldActor.World.RemoveChild | engine/core/world/actor.py:123-126 | only a current child is detached; otherwise nothing changes |
| WorldActor.World.GetChildren | engine/core/world/actor.py:132-134 | exactly the actors whose parent is this one |
| WorldActor.World.SetPosition | engine/core/world/actor.py:9-11 | only the position changes |
| WorldActor.World.SetRotation | engine/core/world/actor.py:13-15 | only the rotation changes |
| WorldActor.World.SetScale | engine/core/world/actor.py:17-19 | only the scale changes |
| WorldActor.World.Serialize | engine/core/world/actor.py:198-208 | exactly the five keys, the name, the parent's name or None, each child's name in order, one entry per component |
| WorldActor.World.DeserializeActor | engine/core/world/actor.py:210-219 | the actor becomes what the corrected Load gives |
| WorldActor.World.ClearSerializationData | engine/core/world/actor.py:265-270 | the stored names go; nothing else changes |
| WorldActor.World.EstablishRelationships | engine/core/world/actor.py:244-263 | every listed actor whose stored parent name names a listed actor gets that parent, no other parent changes, and every listed actor's stored names are cleared |
| WorldActor.World.EstablishOne | engine/core/world/actor.py:253-263 | one turn sets the parent the stored name asks for, then clears the stored names |
| WorldActor.WantedFindsNamedParent | engine/core/world/actor.py:250-257 | when names are unique the parent found is the actor with the stored name |
| WorldActor.SerializeThenLoad | engine/core/world/actor.py:198-241 | loading what serialize wrote raises only when a component fails to build, and otherwise gives back the name, the tags, the parent's name and as many components |
| TransformComponent.NewTC | engine/component/builtin/transformComponent.py:12-28 | a new component has no actor, local position (0, 0), rotation 0, scale (1, 1) and no lock |
| TransformComponent.WorldPosition | engine/component/builtin/transformComponent.py:52-71 | get_world_position answers exactly when the parent chain ends within the depth bound |
| TransformComponent.WorldRotation | engine/component/builtin/transformComponent.py:73-84 | get_world_rotation answers exactly when the parent chain ends within the depth bound |
| TransformComponent.WorldScale | engine/component/builtin/transformComponent.py:86-101 | get_world_scale answers exactly when the parent chain ends within the depth bound |
| TransformComponent.WorldRotationIsChainSum | engine/component/builtin/transformComponent.py:73-84 | the world rotation exists exactly when the parent chain ends, and is the sum of actor rotation plus local rotation over the chain |
| TransformComponent.WorldScaleIsChainProduct | engine/component/builtin/transformComponent.py:86-101 | the world scale exists exactly when the parent chain ends, and is the per-axis product of actor scale times local scale over the chain |
| TransformComponent.WorldPositionFrame | engine/component/builtin/transformComponent.py:52-71 | changing the local position of a transform not on p's chain leaves p's world position unchanged |
| TransformComponent.SetWorldIgnoresParentRotation | engine/component/builtin/transformComponent.py:103-113 | as written, a child of a parent turned half a turn at the origin, asked to go to (1, 0), reads back (-1, 0) |
| TransformComponent.SetWorldAsWritten | engine/component/builtin/transformComponent.py:103-113 | as written: only the transform's own local position changes, every other component and key is kept; it fails exactly when the transform has an actor, a parent, and the parent's chain exceeds the depth bound; with a parent no actor moves |
| TransformComponent.SetWorld | engine/component/builtin/transformComponent.py:103-113 | corrected: nothing without an actor; without a parent the actor moves there and the local position is zeroed; with one only the local position changes |
| TransformComponent.SetThenGetWorld | engine/component/builtin/transformComponent.py:52-113 | with the corrected set_world_position, get_world_position reads back the position set, when the transform is not its own ancestor |
| TransformComponent.MoveTarget | engine/component/builtin/transformComponent.py:115-124 | both axes locked means no move; otherwise an unlocked axis takes the target and a locked one keeps the current value |
| TransformComponent.MoveKeepsLockedAxis | engine/component/builtin/transformComponent.py:115-124 | move_to with one axis locked ends at the target on the free axis and the current value on the locked one |
| TransformComponent.Transforms.constructor | engine/component/builtin/transformComponent.py:5-28 | no transforms yet |
| TransformComponent.Transforms.NewTransform | engine/component/builtin/transformComponent.py:12-28 | a new component as NewTC, with no parent and no children |
| TransformComponent.Transforms.SetParent | engine/component/builtin/transformComponent.py:30-41 | the transform leaves its old parent's list; a new parent lists it, and only that one |
| TransformComponent.Transforms.AddChild | engine/component/builtin/transformComponent.py:43-45 | the child's parent becomes this transform, and only this one lists it |
| TransformComponent.Transforms.RemoveChild | engine/component/builtin/transformComponent.py:47-50 | only a current child is detached; otherwise nothing changes |
| TransformComponent.Transforms.GetWorldPosition | engine/component/builtin/transformComponent.py:52-71 | (0, 0) without an actor; the actor's position plus the local position without a parent |
| TransformComponent.Transforms.GetWorldRotation | engine/component/builtin/transformComponent.py:73-84 | the sum of rotations over the parent chain, when the chain ends |
| TransformComponent.Transforms.SetWorldPosition | engine/component/builtin/transformComponent.py:103-113 | the state becomes what the corrected SetWorld gives; nothing changes when it fails |
| TransformComponent.Transforms.MoveTo | engine/component/builtin/transformComponent.py:115-124 | corrected (Findings row 9): both axes locked changes nothing; otherwise the transform goes to MoveTarget through SetWorld |
| TransformComponent.Transforms.RotateTo | engine/component/builtin/transformComponent.py:126-132 | a locked rotation or a missing actor changes nothing; otherwise only the actor's rotation is set |
| TransformComponent.Transforms.ScaleTo | engine/component/builtin/transformComponent.py:134-140 | a locked scale or a missing actor changes nothing; otherwise only the actor's scale is set |
| TransformComponent.Transforms.LookAt | engine/component/builtin/transformComponent.py:157-168 | a locked rotation or a missing actor changes nothing; otherwise the rotation becomes the angle towards the target, unless it is the current position |
| Scenes.Elems | engine/core/scene.py:103 | the set of tags in a tag list has exactly the list's members |
| Scenes.AddTagsIndexes | engine/core/scene.py:102-106 | after indexing, every tag of the actor has a bucket holding it; other buckets are unchanged; no bucket is empty |
| Scenes.AddTagsKeeps | engine/core/scene.py:102-106 | indexing more tags never drops the actor from a bucket it was in |
| Scenes.RemoveTagsUnindexes | engine/core/scene.py:138-143 | after unindexing, no bucket of the actor's tags holds it, other buckets are unchanged, and empty buckets are deleted |
| Scenes.RemoveTagsKeepsOut | engine/core/scene.py:138-143 | unindexing never puts the actor into a bucket |
| Scenes.AddTagsIsPushed | engine/core/scene.py:102-106 | indexing a list of distinct tags is the same as adding the actor to the bucket of each tag in the set |
| Scenes.RemoveUndoesAdd | engine/core/scene.py:96-143 | removing an actor's distinct tags right after adding them restores the tag index |
| Scenes.Filter | engine/core/scene.py:153-159 | the kept actors are exactly those of the scene that pass the test, in order and without new duplicates |
| Scenes.FilterAll | engine/core/scene.py:153-159 | when every actor passes, the result is the whole list |
| Scenes.Scene.constructor | engine/core/scene.py:16-27 | a named, active, unpaused scene with no actors, names or tags |
| Scenes.Scene.AddActor | engine/core/scene.py:96-106 | an actor already in the scene changes nothing; otherwise it is appended, registered under its name and indexed under its tags |
| Scenes.Scene.RemoveActor | engine/core/scene.py:130-143 | an absent actor changes nothing; otherwise its first occurrence is removed, its name entry deleted and its tags unindexed |
| Scenes.Scene.FindActor | engine/core/scene.py:145-147 | an actor is found exactly when its name is registered |
| Scenes.Scene.FindActorsWithTag | engine/core/scene.py:149-151 | the tag's bucket, which is empty exactly when no actor has the tag |
| Scenes.Scene.FindActorsWithComponent | engine/core/scene.py:153-159 | exactly the scene's actors that have the component, without duplicates |
| Scenes.Scene.StepTargets | engine/core/scene.py:205-213 | a paused scene updates nothing; otherwise exactly its active actors |
| Scenes.Scene.RenderTargets | engine/core/scene.py:237-239 | exactly the active actors are rendered, all of them in order when all are active |
| Scenes.Scene.Clear | engine/core/scene.py:183-191 | every actor is removed and the scene is left empty; each actor's name and tags leave the lookup and the tag buckets; name and flags are kept |
| Scenes.Scene.OnEnter | engine/core/scene.py:270-273 | the scene becomes active and unpaused; nothing else changes |
| Scenes.Scene.OnExit | engine/core/scene.py:275-277 | the scene becomes inactive; nothing else changes |
| Scenes.Scene.OnPause | engine/core/scene.py:279-281 | the scene becomes paused; nothing else changes |
| Scenes.Scene.OnResume | engine/core/scene.py:283-285 | the scene becomes unpaused; nothing else changes |
| Scenes.RemoveDropsSharedName | engine/core/scene.py:96-147 | two actors added under one name: removing the first deletes the name, so find_actor no longer finds the second although it is still in the scene |
| Scenes.SceneManager.constructor | engine/core/scene.py:293-299 | no scenes, no current scene, no transition |
| Scenes.SceneManager.AddScene | engine/core/scene.py:301-303 | the scene is registered under the name, replacing any before it; nothing else changes |
| Scenes.SceneManager.StartTransition | engine/core/scene.py:315-320 | a transition to the named scene starts with the given duration and time 0 |
| Scenes.SceneManager.SwitchScene | engine/core/scene.py:322-331 | the current scene exits, the named one (or none) becomes current and enters, other scenes are untouched, and any transition ends |
| Scenes.SceneManager.LoadScene | engine/core/scene.py:305-313 | an unknown name changes nothing; a positive duration starts a transition; otherwise the scene is switched to at once |
| Scenes.SceneManager.Update | engine/core/scene.py:333-341 | during a transition time advances and the target is switched to once the duration is reached; otherwise the current scene is updated |
| SceneStrict.StrictPull | engine/scene/scene.py:48-51 | removing from a tag's bucket fails exactly when the bucket exists without the actor; otherwise the actor's first entry goes and an emptied bucket is deleted |
| SceneStrict.StrictRemoveTagsFails | engine/scene/scene.py:47-51 | the tag loop raises exactly when some tag has a bucket lacking the actor; when it does not, the index is the one of the lenient scene |
| SceneStrict.StrictRemoveTagsNonEmpty | engine/scene/scene.py:47-51 | the tag loop never leaves an empty bucket behind, even when it raises |
| SceneStrict.StrictScene.constructor | engine/scene/scene.py:9-18 | an active, unpaused scene with no actors, names or tags |
| SceneStrict.StrictScene.AddActor | engine/scene/scene.py:24-36 | a name already present raises ValueError and changes nothing; otherwise the actor is appended, registered and indexed under its tags |
| SceneStrict.StrictScene.RemoveActor | engine/scene/scene.py:38-51 | an unknown name raises and changes nothing; a known name whose actor is not in the list raises from list.remove and changes nothing; otherwise the actor and its name go and its tags are unindexed, raising if a bucket lacks it |
| SceneStrict.StrictScene.UpdateTargets | engine/scene/scene.py:69-76 | an inactive or paused scene updates no actor; otherwise every actor, in order |
| Games.AddHandler | engine/__init__.py:166-170 | the handler is appended to the handlers emitted for its event type; other types keep theirs |
| Games.RemoveHandler | engine/__init__.py:172-176 | the first occurrence of the handler leaves its type's list; other types keep theirs; an absent handler changes nothing |
| Games.RemoveUndoesAddHandler | engine/__init__.py:166-183 | removing a handler right after adding a new one leaves every event type emitting what it did before |
| Games.FixedSteps | engine/__init__.py:194-232 | the frame time is capped at 0.25 s and added to the accumulator; as many fixed steps run as fit, the rest stays below one step, and a short backlog never runs more than 15 steps |
| Games.Game.Blank | engine/__init__.py:70-117 | a game with no scenes, no current scene, an empty stack and no handlers, not running |
| Games.Game.AddScene | engine/__init__.py:134-136 | the scene is registered under the name; nothing else changes |
| Games.Game.LoadScene | engine/__init__.py:139-145 | an unknown name changes nothing; otherwise the old scene exits and the named scene becomes current and enters, keeping its name and actors; every other registered scene and the game's own settings are unchanged |
| Games.Game.PushScene | engine/__init__.py:147-154 | an unknown name changes nothing; otherwise the current scene is paused and pushed, and the named scene becomes current and enters, keeping its name and actors; every other registered scene and the game's own settings are unchanged |
| Games.Game.PopScene | engine/__init__.py:156-164 | the current scene exits; the top of the stack, if any, is popped and resumed, else there is no current scene |
| Games.Game.AddEventHandler | engine/__init__.py:166-170 | the handler table changes as AddHandler says; nothing else changes |
| Games.Game.RemoveEventHandler | engine/__init__.py:172-176 | the handler table changes as RemoveHandler says; nothing else changes |
| Games.Game.Quit | engine/__init__.py:184-186 | the game stops running; nothing else changes |
| Games.GameClass.constructor | engine/__init__.py:61-62 | no instance yet and not initialized |
| Games.GameClass.Construct | engine/__init__.py:64-120 | the first call makes the one instance with the given size and title; later calls return the same instance with its state unchanged |
| Games.GameClass.GetInstance | engine/__init__.py:122-127 | the existing instance, or a new one of 800 by 600 titled "Wicked Wizard Game" |
| Games.PushThenPop | engine/__init__.py:147-164 | pushing a scene and popping it returns to the scene before, resumed, with the stack as it was |
| GameStrict.Game.Blank | engine/game/game.py:26-95 | a game with no scenes, no current scene, an empty stack and no handlers, not running |
| GameStrict.Game.AddScene | engine/game/game.py:97-100 | the scene is registered under the name; the game's other fields are unchanged |
| GameStrict.Game.LoadScene | engine/game/game.py:102-108 | the named scene becomes current when registered; otherwise nothing changes |
| GameStrict.Game.PushScene | engine/game/game.py:110-117 | an unknown name changes nothing; otherwise the current scene, if any, is pushed and the named scene becomes current |
| GameStrict.Game.PopScene | engine/game/game.py:119-127 | the top of the stack, if any, is popped and becomes current; otherwise there is no current scene |
| GameStrict.Game.AddEventHandler | engine/game/game.py:129-133 | the handler is appended for its event type, as in the other Game; nothing else changes |
| GameStrict.Game.RemoveEventHandler | engine/game/game.py:135-139 | the first occurrence of the handler is removed, as in the other Game; nothing else changes |
| GameStrict.GameClass.constructor | engine/game/game.py:17-18 | no instance yet and not initialized |
| GameStrict.GameClass.Construct | engine/game/game.py:20-95 | the first call makes the one instance with the given size and title; later calls return the same instance with its state unchanged |
| InputManagers.NextCases | engine/input/input_manager.py:152-165 | an action becomes PRESSED exactly when down now and not before, DOWN when down both times, RELEASED when down only before, UP otherwise; previously down means DOWN or PRESSED |
| InputManagers.PressHoldRelease | engine/input/input_manager.py:152-165 | holding an input keeps its action DOWN after the first frame; letting go gives RELEASED and then UP |
| InputManagers.Bind | engine/input/input_manager.py:65-77 | the input ends in the action's list, appended only when absent; other actions are untouched and no list ever holds a duplicate |
| InputManagers.Unbind | engine/input/input_manager.py:79-87 | the input leaves the action's list when present; otherwise nothing changes; other actions are untouched |
| InputManagers.UnbindUndoesBind | engine/input/input_manager.py:65-87 | unbinding an input just bound to an action restores the bindings |
| InputManagers.Range | engine/input/input_manager.py:57-63 | the controller ids are exactly 0 up to the number of joysticks |
| InputManagers.AnyHeld | engine/input/input_manager.py:170-179 | the loop finds a held input exactly when some bound input is held |
| InputManagers.ActionIsDown | engine/input/input_manager.py:167-181 | an action is down exactly when some bound key is held or some bound button is held |
| InputManagers.StepActions | engine/input/input_manager.py:152-165 | every action bound to a key or button moves to its next state; the loop over the set gives the same map as the specification |
| InputManagers.InputManager.constructor | engine/input/input_manager.py:21-63 | all sets and bindings empty, mouse at the origin, and for each joystick empty button sets and all axes 0.0 |
| InputManagers.InputManager.BindKey | engine/input/input_manager.py:65-70 | the key bindings change as Bind says; mouse bindings are untouched |
| InputManagers.InputManager.BindMouse | engine/input/input_manager.py:72-77 | the mouse bindings change as Bind says; key bindings are untouched |
| InputManagers.InputManager.UnbindKey | engine/input/input_manager.py:79-82 | the key bindings change as Unbind says; mouse bindings are untouched |
| InputManagers.InputManager.UnbindMouse | engine/input/input_manager.py:84-87 | the mouse bindings change as Unbind says; key bindings are untouched |
| InputManagers.InputManager.AddActionHandler | engine/input/input_manager.py:89-93 | the handler is appended to the action's handlers |
| InputManagers.InputManager.RemoveActionHandler | engine/input/input_manager.py:95-98 | the handler's first occurrence is removed when present; otherwise nothing changes |
| InputManagers.InputManager.HandleEvent | engine/input/input_manager.py:100-130 | the event is recorded; key and button events add to or discard from the held sets; motion sets position and delta; wheel sets the wheel; joystick events touch only known controllers and in-range axes |
| InputManagers.InputManager.IsActionDown | engine/input/input_manager.py:167-181 | whether the action's bound keys or buttons are held now |
| InputManagers.InputManager.UpdateActionStates | engine/input/input_manager.py:152-165 | every bound action takes its next state; the held sets and bindings are untouched |
| InputManagers.InputManager.Update | engine/input/input_manager.py:132-150 | action states advance, previous sets become the current ones, delta, wheel and events are reset, after which no key or button reads as pressed or released |
| InputManagers.InputManager.IsKeyPressed | engine/input/input_manager.py:194-200 | a pressed key is held and is not also released |
| InputManagers.InputManager.IsMouseButtonPressed | engine/input/input_manager.py:206-212 | a pressed button is held and is not also released |
| InputManagers.InputManager.ActionState | engine/input/input_manager.py:214-224 | an action never stepped reads UP |
| InputManagers.InputManager.GetControllerAxis | engine/input/input_manager.py:238-243 | the stored axis value, or 0.0 for an unknown controller or an axis out of range |
| InputManagers.InputManager.IsControllerButtonPressed | engine/input/input_manager.py:251-261 | a pressed controller button is held and is not also released |
| InputManagers.InputManager.GetEventsByType | engine/input/input_manager.py:263-265 | exactly the recorded events of the type |
| InputManagers.OfType | engine/input/input_manager.py:263-265 | the events kept are exactly those of the type, never more than were given |
| InputManagers.KeyDownPressesAction | engine/input/input_manager.py:104-165 | a key down on a bound key turns an action that was up or released into PRESSED |
| InputManagers.KeyUpReleasesAction | engine/input/input_manager.py:106-165 | releasing the only key of a held action turns it RELEASED |
| InputComponents.Fired | engine/builtin/components/input_component.py:130-149 | the actions called are at most the bindings, and each belongs to a binding that runs on this edge (press or release) |
| InputComponents.FiredAppend | engine/builtin/components/input_component.py:130-149 | a binding added last is called last, exactly when it runs on this edge |
| InputComponents.AddBinding | engine/builtin/components/input_component.py:46-53 | the binding is appended to the key's list; other keys keep theirs |
| InputComponents.BindThenPressCalls | engine/builtin/components/input_component.py:33-149 | an on-press binding added to a key is called last when the key goes down, and a press-only binding is not called when it goes up |
| InputComponents.RunBindings | engine/builtin/components/input_component.py:130-149 | every binding for the edge is called in order; the event counts as handled exactly when one of the calls returns without raising |
| InputComponents.InputComponent.constructor | engine/builtin/components/input_component.py:14-31 | no bindings, nothing pressed, keys and mouse enabled, events not consumed |
| InputComponents.InputComponent.BindKey | engine/builtin/components/input_component.py:33-53 | a non-callable action raises ValueError and changes nothing; otherwise the binding is appended to the key's list |
| InputComponents.InputComponent.BindMouse | engine/builtin/components/input_component.py:55-75 | a non-callable action raises ValueError and changes nothing; otherwise the binding is appended to the button's list |
| InputComponents.InputComponent.UnbindKey | engine/builtin/components/input_component.py:77-80 | every binding of the key is removed; nothing else changes |
| InputComponents.InputComponent.UnbindMouse | engine/builtin/components/input_component.py:82-85 | every binding of the button is removed; nothing else changes |
| InputComponents.InputComponent.ClearBindings | engine/builtin/components/input_component.py:87-90 | both binding maps become empty; the pressed sets are kept |
| InputComponents.InputComponent.IsKeyPressed | engine/builtin/components/input_component.py:92-102 | a key is pressed exactly when it is in the copy get_pressed_keys returns |
| InputComponents.InputComponent.IsMousePressed | engine/builtin/components/input_component.py:96-106 | a button is pressed exactly when it is in the copy get_pressed_mouse_buttons returns |
| InputComponents.InputComponent.HandleKeyEvent | engine/builtin/components/input_component.py:114-151 | disabled: nothing happens and False; key down adds the key and runs on-press bindings; key up discards it and runs on-release ones; the result is handled and consume_events |
| InputComponents.InputComponent.HandleMouseEvent | engine/builtin/components/input_component.py:153-191 | disabled: nothing happens and False; button down adds the button and runs on-press bindings; button up discards it and runs on-release ones; the result is handled and consume_events |
| InputComponents.InputComponent.HandleEvent | engine/builtin/components/input_component.py:255-273 | a disabled component or an event other than a key or button event gives False and changes nothing; otherwise the key or mouse handler of that event runs, the other sets and flags are unchanged, and the event is consumed exactly when consume_events is set and some callback ran |
| InputComponents.InputComponent.Update | engine/builtin/components/input_component.py:193-219 | corrected (Findings row 16): the pressed keys become exactly the held key codes, and the pressed buttons the held buttons numbered from 1 |
| InputComponents.UpdateAsWritten | engine/builtin/components/input_component.py:108-112 | update succeeds only when the game has an inputManager attribute, and then gives the held keys |
| InputComponents.UpdateRaisesAsWritten | engine/builtin/components/input_component.py:108-112 | the game's attribute is input_manager, so every update raises AttributeError |
| InputComponents.InputComponent.BindMovementKeys | engine/builtin/components/input_component.py:228-249 | up, down, left and right are bound on press to W, S, A, D or the given keys; a non-callable action raises |
| InputComponents.InputComponent.BindActionKey | engine/builtin/components/input_component.py:251-253 | the action is bound on press to the given key or space; a non-callable action raises |
| InputComponents.PressAndReleaseBoth | engine/builtin/components/input_component.py:130-149 | a binding for both edges is called on the press and on the release |
| InputComponents.FiredHas | engine/builtin/components/input_component.py:130-149 | every binding that runs on the edge has its action called |
| EngineInputs.Bind | engine/components.py:159-169 | after binding, the code under the event type maps to the callback; other event types and other codes keep their bindings |
| EngineInputs.Bound | engine/components.py:186-192 | a callback is found exactly when the event type has a table holding the code |
| EngineInputs.BindThenBound | engine/components.py:159-192 | a lookup after a bind finds the new callback at that slot and the old result everywhere else |
| EngineInputs.RebindOverwrites | engine/components.py:159-169 | binding the same slot twice is the same as binding only the second callback |
| EngineInputs.Lookup | engine/components.py:186-192 | an event type without a table calls nothing; a table and an event lacking the attribute raise AttributeError; otherwise the bound callback, if any, is called |
| EngineInputs.Dispatch | engine/components.py:184-192 | handle_event fails exactly when a table exists for the event type but the event lacks key or button; otherwise it calls at most two callbacks, exactly those bound to its key and button |
| EngineInputs.BoundKeyRunsFirst | engine/components.py:184-192 | a key handler bound for the event's type and key is called, and called first |
| EngineInputs.InputComponent.constructor | engine/components.py:153-157 | no key, mouse or general handlers |
| EngineInputs.InputComponent.BindKey | engine/components.py:159-163 | only the key table changes, as Bind says |
| EngineInputs.InputComponent.BindMouse | engine/components.py:165-169 | only the mouse table changes, as Bind says |
| EngineInputs.InputComponent.AddInputHandler | engine/components.py:171-173 | the handler is appended to the general handlers; nothing else changes |
| EngineInputs.InputComponent.Update | engine/components.py:175-182 | every general handler is called once, in order; the tables do not change |
| EngineInputs.InputComponent.HandleEvent | engine/components.py:184-192 | the calls made are those Dispatch gives; on an AttributeError the key handler already called stays called |
| Clickable.BoundsRect | engine/builtin/components/clickable_component.py:73-114 | no actor gives the empty rect; otherwise the rect is centred on the actor's screen position plus the offset, sized by the bounds, else the sprite, else 32 |
| Clickable.DefaultBounds | engine/builtin/components/clickable_component.py:98-114 | with no bounds and no sprite the rect is 32 by 32 centred on the position: its left edge is inside, its right edge is not |
| Clickable.NoActorNoPoint | engine/builtin/components/clickable_component.py:75-76 | without an actor no point is inside the bounds |
| Clickable.FarEnoughIsDistance | engine/builtin/components/clickable_component.py:198-199 | the squared-distance test used for the drag threshold agrees with comparing the distance itself |
| Clickable.DragArmedAsWritten | engine/builtin/components/clickable_component.py:154-196 | a predicate with no contract of its own: the truth test of drag_start_pos as written, false for None and for the Vector2 (0, 0); PressAtOriginNeverArms and ArmedExactlyAfterPress state its consequences |
| Clickable.DragArmed | engine/builtin/components/clickable_component.py:154-196 | a predicate with no contract of its own: the intended test, a press position was recorded; ArmedExactlyAfterPress states it |
| Clickable.PressAtOriginNeverArms | engine/builtin/components/clickable_component.py:154-196 | as written, a press at (0, 0) records a start position that the truthiness test treats as no position, so no drag can start from it |
| Clickable.ArmedExactlyAfterPress | engine/builtin/components/clickable_component.py:154-196 | corrected: a drag is armed exactly when a press position was recorded, and whatever the as-written test accepts is accepted |
| Clickable.ClickableComponent.constructor | engine/builtin/components/clickable_component.py:16-45 | the given bounds; not hovered, clicked or dragging; no callbacks; enabled, not consuming, threshold 5 |
| Clickable.ClickableComponent.SetBounds | engine/builtin/components/clickable_component.py:47-51 | the bounds and offset are set; the interaction state is untouched |
| Clickable.ClickableComponent.SetHoverCallbacks | engine/builtin/components/clickable_component.py:57-62 | only callbacks that are given replace the old ones |
| Clickable.ClickableComponent.ContainsPoint | engine/builtin/components/clickable_component.py:116-122 | a point is inside only when the component is enabled and has an actor |
| Clickable.ClickableComponent.HandleEvent | engine/builtin/components/clickable_component.py:124-187 | corrected (Findings row 3): motion tracks the mouse, starts or ends the hover and reports drag deltas; a left press inside arms the click; a left release ends it with a click or a drag end when still inside; the result is consume_events when something ran |
| Clickable.ClickableComponent.Update | engine/builtin/components/clickable_component.py:189-202 | corrected (Findings row 3): a held click that has moved at least the threshold from its recorded start turns into a drag and calls on_drag_start once |
| Clickable.PressReleaseClicks | engine/builtin/components/clickable_component.py:159-185 | pressing and releasing inside without dragging calls on_click once and clears the click state |
| Clickable.PressMoveReleaseDrags | engine/builtin/components/clickable_component.py:131-202 | corrected (Findings row 3): pressing, moving past the threshold, updating and releasing inside calls on_drag_end and clears the click and drag |
| Widgets.NewWidget | engine/ui/widget.py:19-42 | a new widget is visible, enabled, NORMAL, with no padding, no handlers and the mouse neither inside nor pressed |
| Widgets.LinkedWf | engine/ui/widget.py:44-55 | parent and children links that mirror each other make a well-formed widget tree |
| Widgets.WorldRect | engine/ui/widget.py:98-109 | a widget's world rect keeps its own size; a root's is its own rect; a root never runs out of recursion |
| Widgets.ContentRect | engine/ui/widget.py:111-119 | the content rect is the world rect less the left and right padding in width and the top and bottom padding in height; a root's is its own rect inset by its padding |
| Widgets.ContainsPoint | engine/ui/widget.py:121-124 | a hit needs a widget of positive width and height; a root is hit exactly where its own rect is |
| Widgets.WorldRectMoreFuel | engine/ui/widget.py:98-119 | a world rect computed within some recursion depth is the same at any greater depth |
| Widgets.ContentRectMoreFuel | engine/ui/widget.py:111-119 | a content rect computed within some recursion depth is the same at any greater depth |
| Widgets.WorldRectShape | engine/ui/widget.py:98-124 | changing a widget's state, but not its rect or padding, changes no world or content rect |
| Widgets.Preorder | engine/ui/widget.py:57-66 | the depth-first order find_child walks visits only widgets of the tree |
| Widgets.FindChild | engine/ui/widget.py:57-66 | a widget found has the name asked for; a widget with no children finds nothing |
| Widgets.FindAmong | engine/ui/widget.py:59-65 | a widget found among the children or their descendants has the name asked for |
| Widgets.FirstNamed | engine/ui/widget.py:59-61 | the first widget in a list with the name, found exactly when one has it |
| Widgets.FirstNamedAppend | engine/ui/widget.py:57-66 | searching two lists one after the other finds the first list's match if it has one, else the second's |
| Widgets.FindFollowsPreorder | engine/ui/widget.py:57-66 | find_child returns the first widget with the name in the depth-first order of the descendants |
| Widgets.FindAmongFollowsPreorder | engine/ui/widget.py:59-66 | the search over a list of children returns the first match in their depth-first order |
| Widgets.UpdatedVisible | engine/ui/widget.py:126-133 | update reaches only visible widgets, each of them the widget itself or one of its descendants |
| Widgets.Updated | engine/ui/widget.py:126-133 | an invisible widget updates nothing; a visible one updates itself first |
| Widgets.UpdatedAmongVisible | engine/ui/widget.py:132-133 | updating a list of children reaches only visible widgets among their descendants |
| Widgets.Runs | engine/ui/widget.py:85-87 | each handler is called once with the event, in order |
| Widgets.Emit | engine/ui/widget.py:80-91 | emit_event calls each handler registered for the type in order with the event and then offers it to the parent, if any |
| Widgets.RemoveUndoesAdd | engine/ui/widget.py:68-91 | removing a handler right after adding a new one leaves what every event type emits unchanged |
| Widgets.AddedHandlerRunsLast | engine/ui/widget.py:68-91 | a handler added to a type is called after the ones before it, whose calls are unchanged |
| Widgets.Restate | engine/ui/widget.py:155-189 | only the widget's mouse flags and state change |
| Widgets.OwnMotion | engine/ui/widget.py:155-165 | motion updates only this widget, adds to the log and is never reported as handled |
| Widgets.OwnPress | engine/ui/widget.py:167-174 | a press updates only this widget and adds to the log |
| Widgets.OwnRelease | engine/ui/widget.py:176-189 | a release other than a left release after a left press changes nothing and passes the event on |
| Widgets.Own | engine/ui/widget.py:155-191 | the widget's own handling touches only itself, adds to the log and never reports motion as handled |
| Widgets.Dispatch | engine/ui/widget.py:144-191 | a hidden or disabled widget passes the event with nothing changed; motion is never reported as handled; no widget is added or removed |
| Widgets.DispatchAmong | engine/ui/widget.py:150-152 | children are offered the event last to first until one handles it; motion is never handled |
| Widgets.DispatchSelfFirst | engine/ui.py:146-191 | the variant that handles its own press or release before its children: a hidden or disabled widget passes the event unchanged; motion is never handled |
| Widgets.DispatchAmongSelfFirst | engine/ui.py:189-191 | children are offered the event last to first until one handles it; motion is never handled |
| Widgets.AmongStep | engine/ui/widget.py:150-152 | offering an event to the first i children is offering it to child i-1 and, if passed, to the ones before it |
| Widgets.AmongStepSelfFirst | engine/ui.py:189-191 | the same stepping for the self-first variant |
| Widgets.Handle | engine/ui/widget.py:144-191 | the recursive handle_event gives exactly the outcome Dispatch specifies |
| Widgets.HandleAmong | engine/ui/widget.py:150-152 | the loop over the children, last to first, gives exactly the outcome DispatchAmong specifies |
| Widgets.HandleSelfFirst | engine/ui.py:146-191 | the self-first handle_event gives exactly the outcome DispatchSelfFirst specifies |
| Widgets.HandleAmongSelfFirst | engine/ui.py:189-191 | the loop over the children gives exactly the outcome DispatchAmongSelfFirst specifies |
| Widgets.SearchChild | engine/ui/widget.py:57-66 | the recursive find_child gives exactly FindChild |
| Widgets.SearchAmong | engine/ui/widget.py:59-66 | the loop over the children gives exactly the search over them |
| Widgets.PressedShape | engine/ui/widget.py:121-124 | changing a widget's state keeps every hit test and every emitted event the same |
| Widgets.PressReleaseInsideClicks | engine/ui/widget.py:167-189 | a left press and release both inside mark the widget PRESSED then HOVER and emit mouse_down, clicked and mouse_up in that order |
| Widgets.PressReleaseOutsideDoesNotClick | engine/ui/widget.py:167-189 | a left press inside and a release outside emit mouse_down and mouse_up but no clicked, and leave the widget NORMAL |
| Widgets.ChildOrParentTakesPress | engine/ui/widget.py:144-174 | a press inside both a child and its parent is taken by the child in the children-first widget and by the parent in the self-first one |
| Widgets.WidgetTree.constructor | engine/ui/widget.py:19-25 | no widgets, no links and no events |
| Widgets.WidgetTree.AddWidget | engine/ui/widget.py:19-42 | a new widget as NewWidget, with no children and no parent |
| Widgets.WidgetTree.AddChild | engine/ui/widget.py:44-49 | the child leaves its old parent and is appended to this one, so exactly one widget lists it |
| Widgets.WidgetTree.RemoveChild | engine/ui/widget.py:51-55 | a present child is detached and its first occurrence removed; otherwise nothing changes |
| Widgets.WidgetTree.Find | engine/ui/widget.py:57-66 | the result of the depth-first search by name |
| Widgets.WidgetTree.AddEventHandler | engine/ui/widget.py:68-72 | the handler is appended for the type; nothing else changes |
| Widgets.WidgetTree.RemoveEventHandler | engine/ui/widget.py:74-78 | the first occurrence of the handler is removed when present; nothing else changes |
| Widgets.WidgetTree.EmitEvent | engine/ui/widget.py:80-91 | the handler calls and the offer to the parent are recorded as Emit says; widgets are unchanged |
| Widgets.WidgetTree.HandleEvent | engine/ui/widget.py:144-191 | the widgets and log become the outcome of Dispatch; running out of recursion is a RecursionError |
| Widgets.WidgetTree.HandleEventSelfFirst | engine/ui.py:146-191 | the widgets and log become the outcome of the self-first dispatch; running out of recursion is a RecursionError |
| Sliders.Clamp | engine/ui/builtin/slider.py:34 | the value setter's clamp never goes below the minimum, nor above the maximum when the range is proper, and keeps a value already in range |
| Sliders.ClampIdempotent | engine/ui/builtin/slider.py:30-36 | clamping an already clamped value changes nothing |
| Sliders.HalfTowardZero | engine/ui/builtin/slider.py:50 | pygame's centery offset: half the height rounded toward zero |
| Sliders.HandleRatio | engine/ui/builtin/slider.py:43-47 | the handle ratio is 0 for an empty or inverted range, otherwise the value's fraction of the range, between 0 and 1 for a value in range |
| Sliders.HandleRect | engine/ui/builtin/slider.py:38-52 | the handle is a 20 by 20 square centred vertically on the track, at the ratio's place along it |
| Sliders.HandleOnTrack | engine/ui/builtin/slider.py:38-52 | for a value in range on a track wider than the handle, the handle lies within the track |
| Sliders.MouseRatio | engine/ui/builtin/slider.py:88-92 | the mouse ratio raises ZeroDivisionError exactly for a zero-width track; otherwise it is clamped to [0, 1] and is the mouse's fraction of the track when over it |
| Sliders.ValueAt | engine/ui/builtin/slider.py:95 | the value at a ratio stays within a proper range, is the minimum at 0 and the maximum at 1 |
| Sliders.ValueAtHandleRatio | engine/ui/builtin/slider.py:43-95 | a click at the handle's ratio gives back the value the handle shows |
| Sliders.Slider.constructor | engine/ui/builtin/slider.py:9-23 | the given range and value, not dragging, visible and enabled, nothing emitted |
| Sliders.Slider.SetValue | engine/ui/builtin/slider.py:30-36 | the value becomes the clamped input, and value_changed is emitted exactly when it changed |
| Sliders.Slider.UpdateValueFromMouse | engine/ui/builtin/slider.py:86-96 | a zero-width track raises ZeroDivisionError and changes nothing; otherwise the value becomes the clamped value at the mouse's ratio |
| Sliders.Slider.HandleEvent | engine/ui/builtin/slider.py:54-84 | a left press on the handle starts a drag; on the track it also sets the value and emits value_changed when it moved; a left release ends a drag and keeps the value; motion while dragging sets the clamped value, or raises on a zero-width track; anything else goes to the widget's own handling |
| TextInputs.PyPrefix | engine/ui/builtin/textInput.py:61 | Python's text[:k]: a prefix of length k, or for negative k the length plus k, never below 0 |
| TextInputs.Keep | engine/ui/builtin/textInput.py:55-56 | the kept characters are exactly those of the text that are allowed, in order |
| TextInputs.Filtered | engine/ui/builtin/textInput.py:55-56 | no filter or an empty set keeps the text; otherwise only allowed characters remain |
| TextInputs.ClippedAsWritten | engine/ui/builtin/textInput.py:59-61 | as written: a prefix of the inserted text, all of it under the limit; over the limit it fills the text exactly up to max_length when the text is within it, and when the text is already longer it still keeps len(t) + max_length - len(text) characters |
| TextInputs.Clipped | engine/ui/builtin/textInput.py:59-61 | corrected: the inserted text is a prefix of the given one, unchanged under the limit, and over it never takes the text past max_length |
| TextInputs.ClippedAgrees | engine/ui/builtin/textInput.py:59-61 | while the text is within max_length the corrected clipping is the clipping as written |
| TextInputs.ClippedKeepsLimit | engine/ui/builtin/textInput.py:59-61 | with a positive limit, an insertion never takes the text past it, and a text already at or over it gains nothing |
| TextInputs.OverlongTextStillGrows | engine/ui/builtin/textInput.py:59-61 | as written, a text of six characters under a limit of 3 still gains "w" from inserting "wxyz", because the negative slice bound keeps a prefix |
| TextInputs.Inserted | engine/ui/builtin/textInput.py:65-66 | the text is split at the cursor with the insertion between, and the cursor moves past it |
| TextInputs.Deleted | engine/ui/builtin/textInput.py:74-78 | backspace removes the character before the cursor and moves it back; delete removes the one at the cursor; otherwise nothing changes; the cursor stays in range |
| TextInputs.InsertThenBackspace | engine/ui/builtin/textInput.py:65-76 | backspace right after typing a character restores the text and cursor |
| TextInputs.InsertThenDelete | engine/ui/builtin/textInput.py:65-78 | delete at the old cursor after typing a character restores the text |
| TextInputs.Moved | engine/ui/builtin/textInput.py:82-87 | the cursor moves one step left or right and stays between 0 and the text length |
| TextInputs.ClickIndex | engine/ui/builtin/textInput.py:114-122 | the cursor placed by a click is within the text |
| TextInputs.ClickIndexMonotone | engine/ui/builtin/textInput.py:114-122 | a click further right never puts the cursor further left |
| TextInputs.CursorFromClick | engine/ui/builtin/textInput.py:114-122 | the loop over character widths gives exactly ClickIndex |
| TextInputs.TextInput.constructor | engine/ui/builtin/textInput.py:9-38 | the initial text with the cursor at its end, unfocused, blink interval 0.5, no limit and no filter |
| TextInputs.TextInput.SetFocus | engine/ui/builtin/textInput.py:40-47 | focus is set; focus_gained or focus_lost is emitted only when it changes |
| TextInputs.TextInput.InsertText | engine/ui/builtin/textInput.py:49-67 | corrected (Findings row 7): disabled or nothing left after filtering and clipping: nothing changes; otherwise the text is inserted at the cursor and text_changed emitted |
| TextInputs.TextInput.DeleteChar | engine/ui/builtin/textInput.py:69-80 | disabled or empty: nothing changes; otherwise Deleted and text_changed, emitted even when nothing was removed |
| TextInputs.TextInput.MoveCursor | engine/ui/builtin/textInput.py:82-87 | the cursor moves as Moved says; nothing else changes |
| TextInputs.TextInput.SetText | engine/ui/builtin/textInput.py:93-97 | the text is replaced, the cursor clamped to its length, and text_changed emitted |
| TextInputs.TextInput.Clear | engine/ui/builtin/textInput.py:99-101 | the text becomes empty with the cursor at 0, and text_changed is emitted |
| TextInputs.TextInput.HandleEvent | engine/ui/builtin/textInput.py:103-148 | corrected (Findings row 7): a left click inside focuses and places the cursor, outside unfocuses; while focused every key down is handled: Backspace and Delete edit and emit text_changed unless the text is empty, the arrows move the cursor, Home and End jump, Enter emits enter_pressed and unfocuses, any other key inserts its clipped printable text; a press of another button, a motion, a release or any other event is not taken and changes nothing; the limits, placeholder and blink state are unchanged |
| TextInputs.TextInput.Update | engine/ui/builtin/textInput.py:150-161 | focused: the cursor blinks each interval; unfocused: it is hidden; the text is untouched |
| UIManagers.UpdatedAmongSplit | engine/ui/uiManager.py:39-42 | updating a list of roots from position i visits root i's walk and then the rest |
| UIManagers.UpdateAll | engine/ui/uiManager.py:39-42 | the loop over the roots visits exactly the widgets the recursive specification says, or runs out of recursion when it does |
| UIManagers.UIManager.constructor | engine/ui/uiManager.py:15-18 | no root widgets and no focused widget |
| UIManagers.UIManager.AddWidget | engine/ui/uiManager.py:20-22 | the widget is appended to the roots |
| UIManagers.UIManager.RemoveWidget | engine/ui/uiManager.py:24-27 | the first occurrence of the widget leaves the roots; an absent widget changes nothing |
| UIManagers.UIManager.FindWidget | engine/ui/uiManager.py:29-37 | the first widget with the name in the depth-first order of the roots and their descendants |
| UIManagers.UIManager.Update | engine/ui/uiManager.py:39-42 | exactly the visible widgets update reaches, or a RecursionError when the recursion runs out |
| UIManagers.UIManager.HandleEvent | engine/ui/uiManager.py:49-55 | the roots are offered the event last to first until one handles it, as the widgets' dispatch specifies |
| UIManagers.UIManager.HandleEventSelfFirst | engine/ui.py:551-557 | the same over widgets that handle their own press or release before their children |
| TilemapComponents.TileType.Value | game/components/tilemap_component.py:15-23 | each tile kind's enum value lies in 0..6 |
| TilemapComponents.TileTypeOf | game/components/tilemap_component.py:15-23 | TileType(n) succeeds exactly for 0..6 and returns the kind whose value is n; any other n is a ValueError |
| TilemapComponents.NewTile | game/components/tilemap_component.py:29-34 | a new tile keeps the given kind and texture; collision defaults to "kind is not EMPTY" and properties default to an empty dict |
| TilemapComponents.ToDict | game/components/tilemap_component.py:36-43 | the dict form carries the kind's value, the texture, the collision flag and the properties |
| TilemapComponents.FromDict | game/components/tilemap_component.py:45-53 | decoding fails exactly when the (defaulted) tile_type is not a valid kind and otherwise rebuilds the tile through the constructor's defaults |
| TilemapComponents.FromDictToDict | game/components/tilemap_component.py:36-53 | from_dict(to_dict(t)) gives back t for every tile |
| TilemapComponents.MissingKeysDefault | game/components/tilemap_component.py:45-53 | a dict without tile_type and collision_enabled decodes to an EMPTY tile without collision |
| TilemapComponents.TileAt | game/components/tilemap_component.py:149-153 | get_tile returns a tile exactly for coordinates inside the map and None otherwise |
| TilemapComponents.Put | game/components/tilemap_component.py:155-159 | writing a tile changes exactly that cell when it is inside the map and nothing otherwise; the grid keeps its shape |
| TilemapComponents.ChunkBounds | game/components/tilemap_component.py:196-202 | a chunk starts at its index times chunk_size and ends a chunk further on or at the map's edge, whichever comes first |
| TilemapComponents.ChunkOf | game/components/tilemap_component.py:162 | the chunk index of a tile (floor division) is the chunk whose span contains that tile |
| TilemapComponents.TileInItsChunk | game/components/tilemap_component.py:162-202 | every tile in the map lies inside the bounds of the chunk set_tile marks for it |
| TilemapComponents.CoveredOnce | game/components/tilemap_component.py:225-271 | in a merged chunk no tile lies in two collision boxes |
| TilemapComponents.CoveredCollides | game/components/tilemap_component.py:235-262 | every tile inside a collision box is collidable, not EMPTY and of the box's own kind |
| TilemapComponents.CoveredAppend | game/components/tilemap_component.py:295-296 | a tile is covered by the boxes after appending one exactly when it was covered before or lies in the new box |
| TilemapComponents.ExpandRight | game/components/tilemap_component.py:239-250 | the horizontal growth returns a width of at least one whose row of tiles is unprocessed, collidable and of the seed's kind |
| TilemapComponents.RowFree | game/components/tilemap_component.py:253-264 | the row check answers true exactly when every tile of the next row under the box is unprocessed, collidable and of the seed's kind |
| TilemapComponents.ExpandDown | game/components/tilemap_component.py:253-266 | the vertical growth returns a height of at least one over which the whole box is unprocessed, collidable and of the seed's kind |
| TilemapComponents.MarkBox | game/components/tilemap_component.py:269-271 | marking sets processed exactly on the box's cells and leaves every other cell as it was |
| TilemapComponents.BoxAdded | game/components/tilemap_component.py:269-296 | adding a freshly grown box keeps the boxes disjoint, each box well formed and the processed grid equal to the covered cells |
| TilemapComponents.Merge | game/components/tilemap_component.py:204-301 | the greedy merge of a chunk returns boxes that are disjoint, lie within the chunk, hold only collidable tiles of one kind each and cover every collidable non-EMPTY tile of the chunk |
| TilemapComponents.MergeAt | game/components/tilemap_component.py:227-296 | one step of the sweep keeps the boxes disjoint and well formed and extends the swept region by one cell |
| TilemapComponents.Filled | game/components/tilemap_component.py:106-118 | the initial grid has height rows of width tiles each equal to the default tile |
| TilemapComponents.InitialTiles | game/components/tilemap_component.py:106-118 | _initialize_tiles builds a height-by-width grid of copies of the default tile |
| TilemapComponents.TypeValues | game/components/tilemap_component.py:542-551 | the exported array has the map's shape and holds each tile's kind value |
| TilemapComponents.Loaded | game/components/tilemap_component.py:529-538 | loading puts at each cell the mapped tile for that cell's id or the default tile when the id has no mapping |
| TilemapComponents.LoadThenExport | game/components/tilemap_component.py:529-551 | when every mapping's kind value equals its id, exporting after loading returns each mapped id unchanged |
| TilemapComponents.RowEntriesTiles | game/components/tilemap_component.py:461-469 | every entry serialised for a row names a tile in that row and the bounds and carries that tile's dict |
| TilemapComponents.AreaEntriesTiles | game/components/tilemap_component.py:460-470 | every entry serialised for a chunk names a tile inside the chunk's bounds and carries that tile's dict |
| TilemapComponents.CollectRow | game/components/tilemap_component.py:462-469 | the inner serialisation loop produces the row's entries in order |
| TilemapComponents.CollectEntries | game/components/tilemap_component.py:458-470 | the chunk serialisation loop produces the chunk's entries row by row |
| TilemapComponents.ApplyEntries | game/components/tilemap_component.py:508-514 | applying entries keeps the grid's shape and fails only with the ValueError of an invalid tile_type |
| TilemapComponents.ApplyAppend | game/components/tilemap_component.py:505-514 | applying two batches of entries one after the other is the same as applying them joined |
| TilemapComponents.ApplyRow | game/components/tilemap_component.py:508-514 | applying a row's entries from a sender succeeds and copies exactly that row's tiles from the sender |
| TilemapComponents.SyncRoundTrip | game/components/tilemap_component.py:449-514 | applying the entries a sender serialised for an area succeeds and makes the receiver's tiles equal the sender's inside the area and unchanged outside it |
| TilemapComponents.SyncHead | game/components/tilemap_component.py:505-514 | applying the first row's entries leaves a grid from which syncing the remaining rows completes the area's sync |
| TilemapComponents.SyncCombine | game/components/tilemap_component.py:505-514 | copying one row and then the following rows copies the whole area |
| TilemapComponents.ChunkArea | game/components/tilemap_component.py:196-202 | a chunk's area starts at its index times chunk_size |
| TilemapComponents.InChunkArea | game/components/tilemap_component.py:162-202 | a tile inside a chunk's area has that chunk as its chunk index |
| TilemapComponents.OwnChunkArea | game/components/tilemap_component.py:162-202 | every tile in the map lies in the area of its own chunk |
| TilemapComponents.OwnChunkVisited | game/components/tilemap_component.py:311-316 | the full rebuild's chunk ranges visit the chunk of every tile in the map |
| TilemapComponents.PartitionFrame | game/components/tilemap_component.py:204-301 | a chunk's boxes stay valid when no tile of the chunk changes its kind or collision |
| TilemapComponents.PutKeepsOthers | game/components/tilemap_component.py:155-167 | set_tile leaves the collision of every other chunk valid and that of its own chunk too when the tile's kind and collision are unchanged |
| TilemapComponents.PutKeepsSync | game/components/tilemap_component.py:155-167 | after set_tile only the tile's own chunk can need a collision rebuild and only when kind or collision changed |
| TilemapComponents.MapCovered | game/components/tilemap_component.py:303-316 | after a full rebuild every collidable tile is covered by a box of its own chunk and by no box of another chunk |
| TilemapComponents.GridsEqual | game/components/tilemap_component.py:149-153 | two grids of the same shape that answer get_tile alike are equal |
| TilemapComponents.PacketRoundTrip | game/components/tilemap_component.py:449-527 | applying the chunk payloads a sender serialised succeeds and gives the receiver the sender's tiles in every sent chunk and its own tiles elsewhere |
| TilemapComponents.TileCoord | game/components/tilemap_component.py:180-182 | the tile index of a local coordinate is the floor of it over tile_size so the coordinate lies in that tile's span; tile_size 0 raises ZeroDivisionError |
| TilemapComponents.ChunkCollision | game/components/tilemap_component.py:204-301 | rebuilding a chunk does nothing without a physics world or with collision off and otherwise replaces only that chunk's boxes with a valid merge |
| TilemapComponents.PlaceTile | game/components/tilemap_component.py:155-167 | placing a tile writes the cell and rebuilds its chunk's collision exactly when kind or collision changed |
| TilemapComponents.RebuildAll | game/components/tilemap_component.py:303-316 | a full rebuild gives every chunk of the map a valid set of boxes and no other chunk any |
| TilemapComponents.RefreshAll | game/components/tilemap_component.py:519-520 | rebuilding a set of chunks makes each of them valid and leaves the collision of the other chunks as it was |
| TilemapComponents.KeysOfAppend | game/components/tilemap_component.py:455-470 | the chunk keys of a payload list grow by the appended payload's key |
| TilemapComponents.PayloadAppend | game/components/tilemap_component.py:455-470 | appending a new chunk's payload keeps the keys distinct and every payload equal to its chunk's entries |
| TilemapComponents.CollectChunks | game/components/tilemap_component.py:455-470 | serialisation produces one payload per dirty chunk, each holding exactly that chunk's entries |
| TilemapComponents.TilemapComponent.constructor | game/components/tilemap_component.py:65-104 | a new tilemap has the given sizes, a grid filled with the default tile, collision on with type 1, friction 0.7 and elasticity 0.0, no physics world and no dirty chunks |
| TilemapComponents.TilemapComponent.UpdateChunkCollision | game/components/tilemap_component.py:204-301 | rebuilds the chunk's boxes only with a physics world and collision enabled, keeps valid collision valid and changes nothing else |
| TilemapComponents.TilemapComponent.SetTile | game/components/tilemap_component.py:155-172 | a tile inside the map is written, its chunk marked for re-render, its collision rebuilt on a change of kind or collision, and with network sync its chunk marked dirty and the version bumped; outside the map nothing changes |
| TilemapComponents.TilemapComponent.RebuildCollision | game/components/tilemap_component.py:303-316 | clears all boxes and with a physics world and collision on rebuilds every chunk validly |
| TilemapComponents.TilemapComponent.OnAdded | game/components/tilemap_component.py:120-135 | attaching records a present physics world and then rebuilds all collision when collision is enabled |
| TilemapComponents.TilemapComponent.OnRemoved | game/components/tilemap_component.py:125-147 | detaching clears every chunk's boxes and keeps the tiles |
| TilemapComponents.TilemapComponent.Update | game/components/tilemap_component.py:318-322 | a dirty transform with collision enabled triggers a full rebuild; otherwise nothing changes |
| TilemapComponents.TilemapComponent.GetTileAtWorldPos | game/components/tilemap_component.py:174-183 | without an actor the answer is None; otherwise the tile returned is the one whose span contains the world position minus the actor's position, and tile_size 0 raises |
| TilemapComponents.TilemapComponent.SetTileAtWorldPos | game/components/tilemap_component.py:185-194 | without an actor nothing happens; otherwise the tile under the world position is written through set_tile, and tile_size 0 raises and changes nothing |
| TilemapComponents.TilemapComponent.SerializeForNetwork | game/components/tilemap_component.py:449-484 | with sync off the packet says only sync_tiles false; otherwise it carries every setting, the version and one payload per dirty chunk holding that chunk's tiles |
| TilemapComponents.TilemapComponent.ApplyChunk | game/components/tilemap_component.py:508-514 | applying a chunk's entries writes their tiles without marking anything dirty, stops at the first invalid tile_type and keeps valid collision valid |
| TilemapComponents.TilemapComponent.ApplyPayloads | game/components/tilemap_component.py:505-516 | applying all payloads writes their tiles and reports the set of updated chunk keys |
| TilemapComponents.TilemapComponent.SyncChunks | game/components/tilemap_component.py:502-520 | applying the payloads and then rebuilding every updated chunk leaves those chunks' collision valid |
| TilemapComponents.TilemapComponent.DeserializeFromNetwork | game/components/tilemap_component.py:486-527 | a packet with sync_tiles false changes nothing; otherwise present settings replace the old ones, the payloads' tiles are written, their chunks rebuilt, last_sync_version taken from the packet and dirty chunks cleared |
| TilemapComponents.TilemapComponent.LoadFromData | game/components/tilemap_component.py:529-540 | loading fails with ValueError on mismatched dimensions and IndexError on an empty or short row, and otherwise fills the grid with the mapped tiles and rebuilds all collision |
| TilemapComponents.TilemapComponent.ToDataArray | game/components/tilemap_component.py:542-551 | the exported array has the map's shape and holds each tile's kind value |
| SimpleTilemaps.IndexInGrid | game/components/tilemap.py:23-25 | the flat index x + y * width of an in-bounds tile lies inside a width*height list |
| SimpleTilemaps.IndexInjective | game/components/tilemap.py:23-25 | two in-bounds positions with the same flat index are the same position |
| SimpleTilemaps.Blank | game/components/tilemap.py:13 | the intended initial map holds one empty cell per tile of the grid |
| SimpleTilemaps.Lookup | game/components/tilemap.py:21-26 | get_tile raises IndexError("Tile position out of bounds") outside the grid, returns the stored cell at x + y * width inside it, and fails when the list is too short |
| SimpleTilemaps.Store | game/components/tilemap.py:28-36 | set_tile raises ValueError for an unregistered id before checking bounds, IndexError outside the grid, and otherwise stores the registered tile at x + y * width |
| SimpleTilemaps.EmptyMapAlwaysFails | game/components/tilemap.py:9-36 | with the map list left empty as the constructor leaves it, every in-bounds get_tile and set_tile fails |
| SimpleTilemaps.BlankCellsAreEmpty | game/components/tilemap.py:21-26 | every in-bounds cell of a fresh intended map reads as empty |
| SimpleTilemaps.StoreThenLookup | game/components/tilemap.py:21-36 | after setting a registered tile, reading that position returns it and every other position reads as before |
| SimpleTilemaps.Tilemap.AsWritten | game/components/tilemap.py:9-15 | the constructor as written records the sizes and leaves both the tile registry and the map list empty |
| SimpleTilemaps.Tilemap.constructor | game/components/tilemap.py:9-15 | the corrected constructor records the sizes and starts from an empty registry and a blank width*height map |
| SimpleTilemaps.Tilemap.RegisterTile | game/components/tilemap.py:17-19 | registering binds the id to a tile with that image and leaves the map unchanged |
| SimpleTilemaps.Tilemap.GetTile | game/components/tilemap.py:21-26 | get_tile returns the cell the lookup function specifies, errors included |
| SimpleTilemaps.Tilemap.SetTile | game/components/tilemap.py:28-36 | set_tile updates the map as the store function specifies and on an error leaves it unchanged |
| Animations.EasingOf | engine/rendering/enhanced_animation.py:319-323 | a known easing name gives the easing of that name and anything else falls back to LINEAR |
| Animations.EasingRoundTrip | engine/rendering/enhanced_animation.py:21-33 | every easing is recovered from its own name |
| Animations.Get | engine/rendering/enhanced_animation.py:319-336 | dict.get returns the stored value when the key is present and the default otherwise |
| Animations.NumberField | engine/rendering/enhanced_animation.py:329-333 | a numeric field takes its default when absent and parses exactly when the stored value is a number |
| Animations.IntField | engine/rendering/enhanced_animation.py:277-278 | an integer field takes its default when absent and parses exactly when the stored value is integral |
| Animations.OptIntField | engine/rendering/enhanced_animation.py:281-284 | an optional integer field is None when absent or null, the integer when integral, and fails to parse otherwise |
| Animations.OptStrField | engine/rendering/enhanced_animation.py:303-306 | an optional string field is None when absent or null, the string when a string, and fails to parse otherwise |
| Animations.StrField | engine/rendering/enhanced_animation.py:244 | a string field takes its default when absent and parses exactly when the stored value is a string |
| Animations.Flag | engine/rendering/enhanced_animation.py:279-280 | a flag takes its default when absent and otherwise the truth value of what is stored |
| Animations.ParseProperty | engine/rendering/enhanced_animation.py:317-338 | a property animation needs a dict with a string target; its easing, start 0, end 1, duration 1.0, offset 0.0 and loop flags follow the file or their defaults, and well-typed fields always parse |
| Animations.ParseProperties | engine/rendering/enhanced_animation.py:313-340 | a list of property animations parses exactly when every entry does, one animation per entry in order |
| Animations.PropertyList | engine/rendering/enhanced_animation.py:270-271 | a property_animations field parses only as a list, entry by entry |
| Animations.CollectProperties | engine/rendering/enhanced_animation.py:313-340 | the parsing loop produces the same list as the entrywise parse |
| Animations.ParseFrameDict | engine/rendering/enhanced_animation.py:267-286 | a dict frame needs a string source; its flips default to false and its property animations are parsed only when present; a bare source gives a frame with every default |
| Animations.Kept | engine/rendering/enhanced_animation.py:263-290 | no more entries are kept than given, and a list of only strings and dicts is kept whole |
| Animations.KeptMembers | engine/rendering/enhanced_animation.py:263-290 | the entries kept are exactly the string and dict entries |
| Animations.ParseFrames | engine/rendering/enhanced_animation.py:260-290 | no more frames than entries, and a list without dict entries always parses |
| Animations.ParseFramesSucceeds | engine/rendering/enhanced_animation.py:260-290 | frame parsing succeeds exactly when every dict entry parses |
| Animations.ParseFramesKeeps | engine/rendering/enhanced_animation.py:260-290 | a successful parse gives one frame per kept entry, in order, skipping other entries |
| Animations.CollectFrames | engine/rendering/enhanced_animation.py:260-290 | the frame loop produces the same list as the recursive parse |
| Animations.ParseSequence | engine/rendering/enhanced_animation.py:257-311 | a sequence keeps its name and frame events, loops by default, does not ping-pong by default, and parses its frames from the list under "frames"; an empty dict gives an empty looping sequence |
| Animations.ParseSet | engine/rendering/enhanced_animation.py:240-255 | the set holds one sequence per key of "animations", each parsed under its own name, and is named by "name" or "Unknown" |
| Animations.StepFor | engine/rendering/enhanced_animation.py:506-535 | one property animation waits before its start or when it is a sine wave; a zero duration raises ZeroDivisionError; at progress 1 it restarts at now, swapped when ping-pong, if it loops, and finishes otherwise |
| Animations.SineWaveNeverEnds | engine/rendering/enhanced_animation.py:513-515 | a sine-wave animation is never restarted or removed by the update |
| Animations.RestartWaits | engine/rendering/enhanced_animation.py:520-531 | a restarted animation waits on the same tick |
| Animations.RemoveFirst | engine/rendering/enhanced_animation.py:535 | list.remove takes out one occurrence of a present entry and leaves the list alone otherwise |
| Animations.ReplaceFirst | engine/rendering/enhanced_animation.py:529-530 | replacing the first occurrence trades one entry for another and keeps the length |
| Animations.Tick | engine/rendering/enhanced_animation.py:501-539 | the update raises exactly when some entry of the snapshot divides by zero, and then raises ZeroDivisionError |
| Animations.Settled | engine/rendering/enhanced_animation.py:506-535 | the entries left after an update are all waiting at that time |
| Animations.TickSettles | engine/rendering/enhanced_animation.py:506-535 | an update that does not raise leaves exactly the settled entries plus whatever was not in the snapshot |
| Animations.UpdateLeavesNothingDue | engine/rendering/enhanced_animation.py:501-539 | after an update that does not raise, no remaining property animation is due to restart or finish at that time |
| Animations.TickAsWritten | engine/rendering/enhanced_animation.py:501-539 | as written: the update raises only ZeroDivisionError or list.index's ValueError, and when every entry is still waiting the list is left as it was |
| Animations.LoopingAnimationRaises | engine/rendering/enhanced_animation.py:520-531 | as written, a looping animation that completes makes list.index raise ValueError, while the intended update just restarts it |
| Animations.Without | engine/rendering/enhanced_animation.py:761-774 | stopping a target removes exactly its entries and keeps every other one |
| Animations.Started | engine/rendering/enhanced_animation.py:411-421 | starting a sequence schedules each of its property animations at now plus its offset, in order, and nothing when it has none |
| Animations.NormalAdvance | engine/rendering/enhanced_animation.py:638-659 | the normal step moves to the next frame, wraps to 0 on loop with on_loop, and otherwise stays on the last frame and stops with on_end |
| Animations.PingPongAsWritten | engine/rendering/enhanced_animation.py:661-689 | as written: with at least two frames a unit step stays on the frames; a stop comes only without looping and raises on_end; a looping single frame bounces to index -1 |
| Animations.SingleFrameBounceLeavesFrames | engine/rendering/enhanced_animation.py:661-672 | as written, a looping ping-pong sequence of one frame bounces to index -1 |
| Animations.PingPong | engine/rendering/enhanced_animation.py:661-689 | the ping-pong step stays on the frames, bounces at len-2 and 1 with on_loop when looping, stops at the ends with on_end otherwise, and agrees with the code for two or more frames |
| Animations.PingPongRun | engine/rendering/enhanced_animation.py:661-689 | repeated ping-pong steps stay on the frames with a unit direction |
| Animations.PingPongRunForward | engine/rendering/enhanced_animation.py:661-672 | going forward k steps without reaching the end advances the index by k |
| Animations.PingPongRunBackward | engine/rendering/enhanced_animation.py:678-684 | going backward k steps without passing the start lowers the index by k |
| Animations.PingPongRoundTrip | engine/rendering/enhanced_animation.py:661-689 | a looping ping-pong sequence returns to frame 0 after 2*(len-1) steps |
| Animations.PingPongRunSplit | engine/rendering/enhanced_animation.py:661-689 | k + m ping-pong steps are k steps followed by m steps |
| Animations.Fired | engine/rendering/enhanced_animation.py:461-464 | an event fires only when named and registered, and then once |
| Animations.FrameEvent | engine/rendering/enhanced_animation.py:487-490 | a frame fires the event the sequence's frame_events names for it, if any |
| Animations.FileAnimationComponent.constructor | engine/rendering/enhanced_animation.py:168-192 | a new component has nothing loaded or playing, frame 0, speed 1.0, forward direction and no property animations or callbacks |
| Animations.FileAnimationComponent.Trigger | engine/rendering/enhanced_animation.py:461-464 | triggering runs the named callback if one is registered and changes nothing else |
| Animations.FileAnimationComponent.FireNamed | engine/rendering/enhanced_animation.py:406-407 | a sequence's optional callback name fires when set and registered |
| Animations.FileAnimationComponent.AddEventCallback | engine/rendering/enhanced_animation.py:457-459 | registering a callback adds its name and changes nothing else |
| Animations.FileAnimationComponent.SetAnimation | engine/rendering/enhanced_animation.py:376-409 | set_animation succeeds exactly for a known name; without restart on the playing animation nothing changes; otherwise it resets the frame, direction and time, schedules the sequence's property animations and fires on_start |
| Animations.FileAnimationComponent.Play | engine/rendering/enhanced_animation.py:423-429 | play starts a known non-empty name as set_animation does and always leaves the component playing and unpaused |
| Animations.FileAnimationComponent.Stop | engine/rendering/enhanced_animation.py:431-436 | stop clears playing and paused and resets frame and frame time |
| Animations.FileAnimationComponent.Pause | engine/rendering/enhanced_animation.py:438-440 | pause sets paused and nothing else |
| Animations.FileAnimationComponent.Resume | engine/rendering/enhanced_animation.py:442-445 | resume clears paused only while playing |
| Animations.FileAnimationComponent.CurrentFrame | engine/rendering/enhanced_animation.py:447-455 | the current frame exists exactly when the index lies on the sequence's frames, and always when the sequence has frames |
| Animations.FileAnimationComponent.AnimationNames | engine/rendering/enhanced_animation.py:776-780 | the names listed are exactly the loaded animations |
| Animations.FileAnimationComponent.IsPlaying | engine/rendering/enhanced_animation.py:782-786 | with a non-empty name the answer is playing that animation; without one, or with the empty (false) name, whether anything plays |
| Animations.FileAnimationComponent.AdvanceNormal | engine/rendering/enhanced_animation.py:638-659 | the normal step leaves the state NormalAdvance gives and plays next_animation when the sequence ends on one |
| Animations.FileAnimationComponent.AdvancePingPong | engine/rendering/enhanced_animation.py:661-689 | corrected (Findings row 2): the ping-pong step leaves the index, direction, stop and event PingPong gives |
| Animations.FileAnimationComponent.AdvanceFrame | engine/rendering/enhanced_animation.py:487-496 | corrected (Findings row 2): a frame change fires the frame's event and then advances normally or by ping-pong |
| Animations.FileAnimationComponent.UpdatePropertyAnimations | engine/rendering/enhanced_animation.py:501-539 | corrected (Findings row 1): the property-animation part of update leaves the list and error Tick gives and nothing else changes |
| Animations.FileAnimationComponent.AddPropertyAnimation | engine/rendering/enhanced_animation.py:711-733 | adds one non-looping animation with the given values started now |
| Animations.FileAnimationComponent.AddSineWaveAnimation | engine/rendering/enhanced_animation.py:735-759 | adds one looping endless sine-wave animation started now |
| Animations.FileAnimationComponent.StopPropertyAnimations | engine/rendering/enhanced_animation.py:761-774 | with no target all property animations stop; with one exactly its entries go |
| Animations.FileAnimationComponent.StepFrame | engine/rendering/enhanced_animation.py:475-496 | corrected (Findings row 2): frame time grows by dt times speed; at the frame's duration it resets, the frame's event fires and the sequence advances |
| Animations.FileAnimationComponent.Update | engine/rendering/enhanced_animation.py:466-499 | corrected (Findings rows 1 and 2): update does nothing unless playing, unpaused and on a sequence; otherwise it runs the property animations, stops on their error, and then steps the frame |
| Animations.FileAnimationComponent.LoadData | engine/rendering/enhanced_animation.py:198-238 | loading succeeds exactly when the document parses; a failure changes nothing; a success installs the set and starts a known default animation |
| HealthComponents.Damaged | engine/components.py:266-267 | health after damage is never negative, is zero exactly when the damage reaches the current health, and never exceeds the old health for a non-negative hit |
| HealthComponents.Healed | engine/components.py:279-280 | health after healing never exceeds the maximum, equals it exactly when the heal reaches it, and never drops for a non-negative heal |
| HealthComponents.InRangeKept | engine/components.py:261-283 | damage and healing keep health between 0 and the maximum |
| HealthComponents.HealUndoesDamage | engine/components.py:261-283 | healing by the amount of a non-fatal hit restores the health before it |
| HealthComponents.DamageSignalsRun | engine/components.py:269-275 | on_death fires exactly when it is set and health is at most 0; on_damage_taken and on_health_changed fire exactly when set; at most three calls |
| HealthComponents.Percentage | engine/components.py:297-300 | zero when the maximum is not positive; otherwise the fraction of the maximum, between 0 and 1 for health in range |
| HealthComponents.Countdown | engine/components.py:290-295 | a vulnerable component is untouched; an invulnerable one loses dt and stays invulnerable exactly while time remains |
| HealthComponents.ExpiredStaysOff | engine/components.py:290-295 | once invulnerability is off, no sequence of updates turns it back on |
| HealthComponents.InvulnerabilityExpires | engine/components.py:285-295 | frames of at least d each end invulnerability once their count times d covers the duration |
| HealthComponents.HealthComponent.constructor | engine/components.py:249-259 | full health at the given maximum, vulnerable, no callbacks |
| HealthComponents.HealthComponent.TakeDamage | engine/components.py:261-275 | invulnerable: nothing changes; otherwise health is the floored difference, the callbacks fire in order and the actor stays alive exactly when the damage was below its health |
| HealthComponents.HealthComponent.Heal | engine/components.py:277-283 | health is capped at the maximum and on_health_changed, if set, fires with the new value |
| HealthComponents.HealthComponent.SetInvulnerable | engine/components.py:285-288 | invulnerable for the given duration; nothing else changes |
| HealthComponents.HealthComponent.Update | engine/components.py:290-295 | the invulnerability countdown advances by dt; nothing else changes |
| HealthComponents.HealthComponent.HealthPercentage | engine/components.py:297-300 | the health fraction of the maximum |
| HealthComponents.HealthComponent.IsAlive | engine/components.py:302-305 | with a positive maximum, alive exactly when the health percentage is positive; a non-negative health that is not alive is exactly 0 |
| ExampleComponents.Regenerated | editor/examples/custom_components.py:41-44 | regeneration changes nothing without a positive rate or below-maximum health, and otherwise keeps health between its old value and the maximum |
| ExampleComponents.HealthComponent.constructor | editor/examples/custom_components.py:19-23 | a new component has 100 of 100 health and no regeneration |
| ExampleComponents.HealthComponent.TakeDamage | editor/examples/custom_components.py:25-27 | damage lowers health by the amount but not below 0 and keeps health in range |
| ExampleComponents.HealthComponent.Heal | editor/examples/custom_components.py:29-31 | healing raises health by the amount but not above the maximum and keeps health in range |
| ExampleComponents.HealthComponent.HealthPercent | editor/examples/custom_components.py:37-39 | the percentage is current over maximum, or 0 when the maximum is not positive |
| ExampleComponents.HealthComponent.IsDead | editor/examples/custom_components.py:33-35 | with health in range, dead exactly at 0; with a positive maximum, dead exactly when the percentage is not positive |
| ExampleComponents.HealthComponent.Update | editor/examples/custom_components.py:41-44 | update regenerates rate times dt while below the maximum and keeps health in range |
| ExampleComponents.Added | editor/examples/custom_components.py:55-61 | adding fails exactly when the inventory is full and the item is new; otherwise the item's count grows by the quantity and every other item is unchanged |
| ExampleComponents.Removed | editor/examples/custom_components.py:63-71 | removal fails exactly when the item is missing or short; otherwise its count drops by the quantity, it disappears at zero, and other items are unchanged |
| ExampleComponents.Count | editor/examples/custom_components.py:77-79 | an item not held counts 0; when every held count is positive, the count is positive exactly for a held item |
| ExampleComponents.AddKeepsHas | editor/examples/custom_components.py:55-75 | adding a non-negative quantity of any item keeps every hasItem that held before |
| ExampleComponents.AddKeepsSlots | editor/examples/custom_components.py:55-61 | a successful add never takes the inventory past its slot limit |
| ExampleComponents.AddKeepsPositive | editor/examples/custom_components.py:55-61 | adding a positive quantity keeps every count positive |
| ExampleComponents.RemoveKeepsPositive | editor/examples/custom_components.py:63-71 | a successful removal keeps every count positive |
| ExampleComponents.AddThenRemove | editor/examples/custom_components.py:55-71 | removing what was just added gives back the inventory as it was |
| ExampleComponents.HasIffRemovable | editor/examples/custom_components.py:63-75 | hasItem holds exactly when removing that quantity would succeed |
| ExampleComponents.Has | editor/examples/custom_components.py:73-75 | a predicate with no contract of its own: getItemCount reaches the quantity; HasIffRemovable and AddKeepsHas state its consequences |
| ExampleComponents.InventoryComponent.constructor | editor/examples/custom_components.py:50-53 | a new inventory is empty with 20 slots |
| ExampleComponents.InventoryComponent.AddItem | editor/examples/custom_components.py:55-61 | addItem returns whether the add succeeds and leaves the inventory the add function gives, or unchanged |
| ExampleComponents.InventoryComponent.RemoveItem | editor/examples/custom_components.py:63-71 | removeItem returns whether the removal succeeds and leaves the inventory the removal function gives, or unchanged |
| ExampleComponents.Advanced | editor/examples/custom_components.py:199-216 | a paused timer is untouched; an active one gains dt, and a repeating one that reaches its duration restarts at 0 |
| ExampleComponents.Ticked | editor/examples/custom_components.py:195-220 | after update the finished non-repeating timers are gone, paused ones are untouched, repeating ones that finished restart, and the rest have gained dt |
| ExampleComponents.Remaining | editor/examples/custom_components.py:181-186 | the remaining time is never negative, is 0 for an unknown timer, and is duration minus elapsed while the timer runs |
| ExampleComponents.FinishedIffNoneRemaining | editor/examples/custom_components.py:181-193 | a timer is finished exactly when no time remains |
| ExampleComponents.IsFinished | editor/examples/custom_components.py:188-193 | a predicate with no contract of its own: a known timer whose elapsed time reached its duration; FinishedIffNoneRemaining states that this is a timer with no time remaining |
| ExampleComponents.Keep | editor/examples/custom_components.py:166-169 | removing names from the insertion order keeps exactly the other names and keeps them distinct |
| ExampleComponents.KeepTwice | editor/examples/custom_components.py:219-220 | removing finished timers one after another removes them all |
| ExampleComponents.Finished | editor/examples/custom_components.py:213-216 | the finished list holds exactly the visited timers that finish without repeating |
| ExampleComponents.TimerComponent.constructor | editor/examples/custom_components.py:152-154 | a new timer component has no timers |
| ExampleComponents.TimerComponent.AddTimer | editor/examples/custom_components.py:156-164 | addTimer installs an active timer at 0 elapsed, replacing any of that name and keeping its place in the order |
| ExampleComponents.TimerComponent.RemoveTimer | editor/examples/custom_components.py:166-169 | removeTimer deletes the timer and its place in the order |
| ExampleComponents.TimerComponent.PauseTimer | editor/examples/custom_components.py:171-174 | pauseTimer deactivates a known timer and ignores an unknown one |
| ExampleComponents.TimerComponent.ResumeTimer | editor/examples/custom_components.py:176-179 | resumeTimer reactivates a known timer and ignores an unknown one |
| ExampleComponents.TimerComponent.Update | editor/examples/custom_components.py:195-220 | update leaves the timers Ticked gives, drops the finished ones from the order, and runs their callbacks in insertion order |
| ExampleComponents.TimerComponent.RemoveAll | editor/examples/custom_components.py:219-220 | the removal loop deletes every finished name |
| ExampleComponents.TimerComponent.AdvanceAll | editor/examples/custom_components.py:197-216 | the first loop advances every timer in insertion order, runs the callbacks that finish, and collects the finished non-repeating names |
| ExampleComponents.TimerComponent.AdvanceOne | editor/examples/custom_components.py:199-216 | one loop step advances one timer, runs its callback when it finishes, and reports whether it is done |
| ExampleComponents.TickedIsAdvancedLessDone | editor/examples/custom_components.py:195-220 | advancing every timer and then removing the finished ones gives the Ticked timers |
| ExampleComponents.Change | editor/examples/custom_components.py:242-268 | changing to an unknown or the current state does nothing; a current state missing from the dict raises KeyError; otherwise the state changes, with the exit hook of the old state and the enter hook of the new one called when set |
| ExampleComponents.ChangeIdempotent | editor/examples/custom_components.py:242-249 | changing to the state just entered does nothing more |
| ExampleComponents.StateComponent.constructor | editor/examples/custom_components.py:226-232 | a new state machine is in "idle", whose hooks are all unset |
| ExampleComponents.StateComponent.AddState | editor/examples/custom_components.py:234-240 | addState installs or replaces the state's hooks and keeps the current state |
| ExampleComponents.StateComponent.ChangeState | editor/examples/custom_components.py:242-268 | changeState does what Change gives and reports whether the state changed; with a known current state it never raises |
| ExampleComponents.StateComponent.Update | editor/examples/custom_components.py:270-277 | update raises KeyError when the current state is unknown; otherwise it calls the state's update hook with dt when set |
| Colliders.TypeOf | engine/component/builtin/colliderComponent.py:6-10 | a string names a collider type exactly when it is that type's value; any other string raises ValueError |
| Colliders.TypeRoundTrip | engine/component/builtin/colliderComponent.py:270-285 | corrected (Findings row 17): a collider type serialized as its value is read back as the same type |
| Colliders.SerializeAsWritten | engine/component/builtin/colliderComponent.py:270-277 | given the base class's methods, serialize succeeds exactly when the base has serialize, and then saves the type's value; the base Component defines none (SaveAndLoadRaiseAsWritten) |
| Colliders.DeserializeAsWritten | engine/component/builtin/colliderComponent.py:279-290 | given the base class's methods, deserialize raises AttributeError when the base has no deserialize; otherwise a missing key gives no type and a present one loads exactly when it names a collider type |
| Colliders.SaveAndLoadRaiseAsWritten | engine/component/builtin/colliderComponent.py:270-290 | the base Component has neither method, so serialize and deserialize both raise AttributeError |
| Colliders.DefaultMaskBits | engine/component/builtin/colliderComponent.py:34 | the default mask 0xFFFFFFFF admits exactly the layers 0 to 31 |
| Colliders.LayersMatch | engine/component/builtin/colliderComponent.py:110-114 | the layer check passes exactly when each mask has the other's layer bit; a negative layer raises ValueError for the shift |
| Colliders.LayersMatchSymmetric | engine/component/builtin/colliderComponent.py:110-114 | the layer check gives the same answer whichever collider asks |
| Colliders.DefaultMasksMatch | engine/component/builtin/colliderComponent.py:34-114 | two colliders with default masks pass the layer check exactly when both layers are below 32 |
| Colliders.Overlaps | engine/component/builtin/colliderComponent.py:105-137 | no overlap without both actors; overlap exactly when both have actors, the layers match and the shapes touch |
| Colliders.Contacts | engine/component/builtin/colliderComponent.py:181-199 | the other collider is tracked afterwards exactly when it collides; enter, stay and exit fire exactly on the start, continuation and end of contact; no other tracked collider changes |
| Colliders.ContactsSettle | engine/component/builtin/colliderComponent.py:181-199 | checking the same collision twice gives the same tracked set and fires stay or nothing the second time |
| Colliders.ColliderComponent.constructor | engine/component/builtin/colliderComponent.py:21-50 | the given shape and size, layer 0, mask 0xFFFFFFFF, no trigger, no actor, no contacts |
| Colliders.ColliderComponent.OverlapsWith | engine/component/builtin/colliderComponent.py:105-137 | the overlap test of the two components' state |
| Colliders.ColliderComponent.CheckCollisionWith | engine/component/builtin/colliderComponent.py:181-199 | the other collider is tracked exactly when it overlaps, the callbacks fire as Contacts says and the shape and settings are untouched |
| Colliders.ColliderComponent.AllCollisions | engine/component/builtin/colliderComponent.py:201-203 | the contacts as a set value of their own, so later contact changes do not alter it; with CheckCollisionWith, it holds a collider exactly when the last check found it overlapping |
| Colliders.ColliderComponent.IsCollidingWithLayer | engine/component/builtin/colliderComponent.py:209-214 | true exactly when some tracked collider is on the layer |
| Colliders.ColliderComponent.SetSize | engine/component/builtin/colliderComponent.py:216-222 | a rectangle takes the width and the height or the width again; a circle takes the width as radius; a point is unchanged |
| Colliders.ColliderComponent.Deserialize | engine/component/builtin/colliderComponent.py:279-290 | corrected (Findings row 17): an unknown type value raises ValueError and changes nothing; otherwise the type is set when given and the tracked contacts are cleared |
| Sprite.RectOf | engine/components/sprite_component.py:45 | a surface's rect sits at the origin with the surface's width and height |
| Sprite.TryTexture | engine/components/sprite_component.py:40-46 | the texture is used exactly when the sprite has a truthy texture id and the asset manager finds it; then the rect follows the texture |
| Sprite.Filled | engine/components/sprite_component.py:51-54 | a negative truncated size raises and changes nothing; otherwise the surface becomes a solid rectangle of the current colour with its rect |
| Sprite.CreateAsWritten | engine/components/sprite_component.py:38-54 | as written: a found texture wins; colour, size and alpha are kept; and any surface already there, even a solid one of an older colour or size, is kept unchanged when no texture is found |
| Sprite.ColourChangeNotShown | engine/components/sprite_component.py:50-54 | as written, a sprite showing a white solid rectangle keeps showing white after its colour becomes red |
| Sprite.Create | engine/components/sprite_component.py:38-54 | corrected: a found texture wins; otherwise the solid rectangle is remade; colour, size, texture id, offset, flips and alpha are never changed |
| Sprite.CreateShowsColour | engine/components/sprite_component.py:38-54 | without a texture, a solid sprite of non-negative size shows a rectangle of its current colour and truncated size |
| Sprite.CreateShowsTexture | engine/components/sprite_component.py:40-46 | a texture the asset manager finds becomes the surface and sets the rect |
| Sprite.CreateKeepsExternal | engine/components/sprite_component.py:50-54 | a surface handed in by the caller is kept when no texture replaces it |
| Sprite.Wire | engine/components/sprite_component.py:122-135 | the network form carries exactly the seven keys color, size, texture_id, offset, flip_x, flip_y and alpha |
| Sprite.ColourListDecodes | engine/components/sprite_component.py:128-145 | a colour sent as a four-element list is read back as the same colour |
| Sprite.VecListDecodes | engine/components/sprite_component.py:129-156 | a vector sent as a two-element list is read back as the same vector |
| Sprite.WithAlpha | engine/components/sprite_component.py:170-172 | applying alpha keeps whether there is a surface and keeps the rect |
| Sprite.Received | engine/components/sprite_component.py:137-165 | the assignments raise exactly when a sent colour, size or offset does not convert; otherwise each sent colour, size and offset is the converted value and a sent alpha is taken as is |
| Sprite.ReceivedTouchesOnlyPresentKeys | engine/components/sprite_component.py:137-165 | each property changes only when its key is in the received data; surface and rect are not touched before the surface is remade |
| Sprite.EmptyDataChangesNothing | engine/components/sprite_component.py:137-165 | data carrying none of the seven keys changes no property |
| Sprite.NetworkRoundTrip | engine/components/sprite_component.py:122-172 | a receiver that deserializes what a sender serialized ends with the sender's colour, size, texture id, offset, flips and alpha |
| Sprite.ReceivedKeepsColourValid | engine/components/sprite_component.py:143-145 | deserializing keeps the colour a valid RGBA value |
| Sprite.Deserialized | engine/components/sprite_component.py:137-172 | as written: succeeds only when the assignments did; the colour, size, offset and alpha are those received; a surface left with an alpha other than 255 carries it |
| Sprite.Initial | engine/components/sprite_component.py:16-33 | colour defaults to white and size to (32, 32) when missing or zero; offset is (0, 0), alpha 255, no rect yet |
| Sprite.Centred | engine/components/sprite_component.py:80-82 | centring a rect keeps its size and puts its centre at the given point, with integer halving |
| Sprite.SpriteComponent.constructor | engine/components/sprite_component.py:16-36 | the new sprite is the initial look after its surface is created |
| Sprite.SpriteComponent.Restore | engine/components/sprite_component.py:16-33 | the component's fields take the given look |
| Sprite.SpriteComponent.SetTextureId | engine/components/sprite_component.py:56-59 | the texture id is set and the surface recreated; nothing else changes |
| Sprite.SpriteComponent.SetSurface | engine/components/sprite_component.py:61-65 | the surface and its rect are set and the texture id cleared; nothing else changes |
| Sprite.SpriteComponent.SetColor | engine/components/sprite_component.py:67-71 | corrected (Findings row 6): the colour is set; the surface is recreated only when there is no texture id |
| Sprite.SpriteComponent.SetSize | engine/components/sprite_component.py:73-76 | corrected (Findings row 6): the size is set and the surface recreated |
| Sprite.SpriteComponent.Update | engine/components/sprite_component.py:78-82 | with a world position and a rect of non-zero width and height (a true pygame Rect), the rect is centred on the truncated world position plus offset; otherwise nothing changes |
| Sprite.SpriteComponent.SerializeForNetwork | engine/components/sprite_component.py:122-135 | the component's state in its network form |
| Sprite.SpriteComponent.DeserializeFromNetwork | engine/components/sprite_component.py:137-172 | corrected (Findings row 6): present keys are applied, the surface is recreated and the alpha applied to it |
| Sprite.SpriteComponent.CreateSurface | engine/components/sprite_component.py:38-54 | the state becomes the corrected _create_surface of the old state |
| AssetCache.Empty | engine/core/asset_manager.py:19-27 | a new cache holds no assets and is consistent |
| AssetCache.Hit | engine/core/asset_manager.py:73-75 | a cache hit returns the stored asset and raises its count by one without touching any other entry |
| AssetCache.Store | engine/core/asset_manager.py:90-91 | a freshly loaded asset is stored with a count of one |
| AssetCache.Release | engine/core/asset_manager.py:214-220 | a release ignores unknown names, lowers a count above one, and evicts an asset whose count reaches zero |
| AssetCache.LoadKeepsValid | engine/core/asset_manager.py:73-96 | loading keeps every cached name counted at least once; a hit returns the cached asset with its count raised, a fresh load counts one, and a failed load changes nothing |
| AssetCache.ReleaseKeepsValid | engine/core/asset_manager.py:214-220 | releasing keeps every cached name counted at least once and the two dicts on the same keys |
| AssetCache.StoreThenReleaseRestores | engine/core/asset_manager.py:90-91 | loading a new asset and releasing it once gives back the cache as it was |
| AssetCache.HitThenReleaseRestores | engine/core/asset_manager.py:73-75 | a hit followed by one release gives back the cache as it was |
| AssetCache.ReleasesUntilEvicted | engine/core/asset_manager.py:214-220 | fewer releases than an asset's count keep it cached with its count lowered by the number of releases |
| Assets.WebpOnlyInCore | engine/core/asset_manager.py:41-43 | only the core manager accepts .webp; all three accept .png |
| Assets.FontKeyInjective | engine/core/asset_manager.py:121 | the font cache key name_size is determined by, and determines, the name and the size |
| Assets.RFind | engine/core/asset_manager.py:181-184 | the search finds the last occurrence of a character, or -1 when there is none |
| Assets.Suffix | engine/core/asset_manager.py:181-184 | a path's suffix is empty or starts with a dot |
| Assets.Lower | engine/core/asset_manager.py:184 | lower-casing keeps the length and lowers each character |
| Assets.FirstExisting | engine/core/asset_manager.py:189-195 | the search over extensions returns an existing name+extension; it returns None only when no extension gives an existing file |
| Assets.FindAssetFile | engine/core/asset_manager.py:179-195 | a name with a known suffix is found only as itself; any other name is searched with each known extension appended |
| Assets.Steps | engine/core/asset_manager.py:286-293 | the tile offsets visited along one axis all fit between the margins; there is at least one exactly when a tile fits |
| Assets.RowTiles | engine/core/asset_manager.py:287-292 | every rectangle of a row lies on that row at one of the visited x offsets and has the tile size |
| Assets.GridTiles | engine/core/asset_manager.py:285-293 | every rectangle of the sheet lies at a visited y and x offset and has the tile size |
| Assets.SheetTilesInsideMargins | engine/core/asset_manager.py:275-295 | every sliced sprite has the tile size and lies inside the image's margins |
| Assets.SheetTooSmallIsEmpty | engine/core/asset_manager.py:285-293 | an image too small for one tile between its margins slices to nothing |
| Assets.AssetManager.constructor | engine/core/asset_manager.py:15-46 | a new manager of any of the three variants starts with all caches empty |
| Assets.AssetManager.LoadImage | engine/core/asset_manager.py:65-96 | a cached image is returned with its count raised; otherwise the image is stored with count one when a file is found and decodes, and nothing changes when not |
| Assets.AssetManager.LoadSound | engine/core/asset_manager.py:98-117 | a cached sound is returned with its count raised; otherwise the sound is stored with count one when a file is found and decodes, and nothing changes when not |
| Assets.AssetManager.LoadFont | engine/core/asset_manager.py:119-154 | a cached name_size font is returned with its count raised; otherwise a system font, then a found file's font, then the default font is stored with count one |
| Assets.AssetManager.LoadFontAt | engine/core/asset_manager.py:121-154 | the font loading steps under an already built cache key |
| Assets.AssetManager.ChooseFont | engine/core/asset_manager.py:128-154 | the system font wins, then a font file that loads, then the default font |
| Assets.AssetManager.LoadData | engine/core/asset_manager.py:156-177 | cached data is returned unchanged; otherwise parsed data is cached and returned, and a failed parse returns None and caches nothing |
| Assets.AssetManager.GetImage | engine/core/asset_manager.py:197-199 | getImage returns the cached image exactly when one is cached |
| Assets.AssetManager.GetFont | engine/core/asset_manager.py:205-208 | getFont finds a font exactly when one is cached under name_size |
| Assets.AssetManager.ReleaseImage | engine/core/asset_manager.py:214-220 | releasing an image performs the reference-counted release on the image cache |
| Assets.AssetManager.ReleaseSound | engine/core/asset_manager.py:222-228 | releasing a sound performs the reference-counted release on the sound cache |
| Assets.AssetManager.ReleaseFont | engine/core/asset_manager.py:230-237 | releasing a font performs the reference-counted release under its name_size key |
| Assets.AssetManager.SliceSpritesheet | engine/core/asset_manager.py:275-295 | the core manager raises ValueError for an image it has not cached; the other two managers return an empty list; a cached image is sliced row by row into every tile that fits between the margins, and the result is ValueError when a tile does not lie inside the image (a negative margin or tile size), because image.subsurface refuses it |
| Assets.TilesInsideImage | engine/core/asset_manager.py:283-290 | with a margin and tile size that are not negative, every sliced tile lies inside the image, so subsurface never raises |
| Assets.AssetManager.SliceSheet | engine/core/asset_manager.py:285-293 | the slicing loops produce exactly the sheet's tiles row by row |
| Assets.AssetManager.SliceRow | engine/core/asset_manager.py:287-292 | the inner loop produces exactly one row's tiles left to right |
| Assets.AssetManager.Cleanup | engine/core/asset_manager.py:328-336 | cleanup empties every cache and every count |
| Assets.AssetManager.MemoryUsage | engine/core/asset_manager.py:338-345 | the memory report gives the number of images, sounds, fonts and data files held |
| EditorUtils.Reversed | editor/editor_utils.py:91-105 | the redo stack holds undone commands newest first, so the reversal of a list puts its last element first |
| EditorUtils.ReversedSnoc | editor/editor_utils.py:94-96 | reversing a list with one more command at the end puts that command first |
| EditorUtils.ExecuteKeepsNewest | editor/editor_utils.py:79-89 | executing pushes the command, keeps only the newest max_history commands, clears redo, and makes the command the next one to undo |
| EditorUtils.BoundKept | editor/editor_utils.py:79-105 | execute, undo and redo all keep the undo history within max_history |
| EditorUtils.UndoRedoKeepTimeline | editor/editor_utils.py:91-105 | undo and redo move a command between the two stacks without changing the combined timeline |
| EditorUtils.UndoRedoInverse | editor/editor_utils.py:91-105 | redo after undo, and undo after redo, give back the same stacks |
| EditorUtils.ExecuteEnablesUndoOnly | editor/editor_utils.py:79-113 | after executing a command it can be undone but nothing can be redone, and undoing it makes it the one redo command |
| EditorUtils.UndoRedoManager.constructor | editor/editor_utils.py:73-77 | a new manager has empty stacks and a history limit of 100 |
| EditorUtils.UndoRedoManager.ExecuteCommand | editor/editor_utils.py:79-89 | executing runs the command, updates the stacks as AfterExecute gives and emits changed |
| EditorUtils.UndoRedoManager.Undo | editor/editor_utils.py:91-97 | undo reverts the newest command, moves it to the redo stack and emits changed; with nothing to undo nothing happens |
| EditorUtils.UndoRedoManager.Redo | editor/editor_utils.py:99-105 | redo re-runs the newest undone command, moves it back to the undo stack and emits changed; with nothing to redo nothing happens |
| EditorUtils.UndoRedoManager.CanUndo | editor/editor_utils.py:107-109 | true exactly when undo would change the history |
| EditorUtils.UndoRedoManager.CanRedo | editor/editor_utils.py:111-113 | true exactly when redo would change the history |
| EditorUtils.UndoRedoManager.Clear | editor/editor_utils.py:115-119 | clear empties both stacks and emits changed |
| EditorUtils.Serialize | editor/editor_utils.py:314-335 | no contract of its own, because a postcondition on this recursion slows the round-trip proofs; SerializeShape, SerializeIsJson and RoundTrip state what it does |
| EditorUtils.SerializeShape | editor/editor_utils.py:314-335 | lists and tuples become lists of the same length, dicts keep their keys, and Vector2, Color and Rect become dicts tagged with their type name |
| EditorUtils.Deserialize | editor/editor_utils.py:337-354 | no contract of its own, for the same reason; RoundTrip, DeserializeUntagged, UnknownTagKept and MissingFieldRaises state what it does |
| EditorUtils.MakeVector | editor/editor_utils.py:343-344 | a tagged Vector2 dict needs numeric x and y; it raises KeyError naming the first missing key |
| EditorUtils.MakeColor | editor/editor_utils.py:345-346 | a tagged Color dict needs r, g, b and a integers in 0..255 and gives that colour |
| EditorUtils.MakeRect | editor/editor_utils.py:347-348 | a tagged Rect dict needs integer x, y, width and height and gives that rectangle |
| EditorUtils.Okay | editor/editor_utils.py:341-354 | a failed reconstruction is an error and a successful one its value |
| EditorUtils.RoundTrip | editor/editor_utils.py:314-354 | deserialising a serialised value gives the value back, with tuples turned into lists |
| EditorUtils.RoundTripLeaf | editor/editor_utils.py:318-335 | None, scalars, vectors, colours and rectangles come back unchanged |
| EditorUtils.RoundTripItems | editor/editor_utils.py:322-323 | a list comes back element by element |
| EditorUtils.RoundTripDict | editor/editor_utils.py:324-325 | an untagged dict comes back key by key |
| EditorUtils.DeserializeUntagged | editor/editor_utils.py:351-352 | an untagged dict deserialises to a dict with the same keys, each value deserialised |
| EditorUtils.SerializeIsJson | editor/editor_utils.py:314-335 | serialisation always produces json-ready data: None, scalars, strings, lists and string-keyed dicts |
| EditorUtils.TupleComesBackAsList | editor/editor_utils.py:322-323 | a tuple does not survive the round trip and comes back as a list |
| EditorUtils.TaggedUserDictBecomesVector | editor/editor_utils.py:341-344 | a user dict that happens to carry __type__ Vector2 comes back as a vector, not a dict |
| EditorUtils.UnknownTagKept | editor/editor_utils.py:341-354 | a dict with an unknown __type__ is returned as it is |
| EditorUtils.MissingFieldRaises | editor/editor_utils.py:343-344 | a Vector2 dict lacking y or x raises |
| EditorUtils.TypeName | editor/editor_utils.py:362 | type(value).__name__: each built-in kind has its own name, so two values of different built-in kinds never share one |
| EditorUtils.PropertyInfo | editor/editor_utils.py:356-389 | an unknown property gives an empty dict; a known one gives its name, type name, value and editable flag, the widget for its kind, and the spinbox bounds -999999 and 999999 for numbers |
| EditorUtils.BoolIsCheckbox | editor/editor_utils.py:372-377 | a bool, though numeric in Python, gets a checkbox and no spinbox bounds |
| EditorUtils.WidgetKinds | editor/editor_utils.py:372-387 | bool gets checkbox, other numbers spinbox, strings lineedit, pygame vectors, colours and rects their own widget, and anything else no widget |
| EditorProjects.Contains | editor/editor_project.py:107 | the in test finds a key of a dict or an element of a list and fails on other values |
| EditorProjects.SubError | editor/editor_project.py:157-159 | filling a non-dict editor_settings succeeds only when every default sub-key is already found in it |
| EditorProjects.FillMissing | editor/editor_project.py:153-155 | every default key missing from the settings is added and every present key keeps its value |
| EditorProjects.MergeNonDictRaises | editor/editor_project.py:153-159 | settings that are not a dict make deserialize raise TypeError and are left as they were |
| EditorProjects.MergeFillsDefaults | editor/editor_project.py:141-159 | after merging, the settings hold their own keys plus every missing default, unchanged except editor_settings, and merging raises only for a non-dict editor_settings lacking a default sub-key |
| EditorProjects.MergeEditorSettings | editor/editor_project.py:156-159 | a dict editor_settings keeps its own entries and gains every missing default sub-key; anything else is left as it is |
| EditorProjects.MergeIdempotent | editor/editor_project.py:141-159 | merging the defaults into already merged settings changes nothing |
| EditorProjects.PathAddedNoDup | editor/editor_project.py:105-115 | adding a path to a duplicate-free list appends it exactly when it is absent, keeps the list duplicate-free, and leaves the other settings alone |
| EditorProjects.PathAddedTwice | editor/editor_project.py:105-115 | adding the same path twice changes nothing the second time |
| EditorProjects.PlaceholderRoundTrip | editor/editor_project.py:119-168 | a scene entry written by serialize comes back as a placeholder scene with the same name, file path and dirty flag |
| EditorProjects.PlaceholderDefaults | editor/editor_project.py:163-168 | an empty scene entry gives a clean placeholder named after its id with no file |
| EditorProjects.AppendedSnoc | editor/editor_project.py:163-169 | assigning one more scene id extends the dict order by that id, if new |
| EditorProjects.AppendedLists | editor/editor_project.py:163-169 | after assigning ids the dict order has no duplicates and holds exactly the old ids and the assigned ones |
| EditorProjects.Placeholders | editor/editor_project.py:163-169 | one placeholder result is computed per scene entry |
| EditorProjects.FirstBad | editor/editor_project.py:163-169 | the loading loop stops at the first scene entry whose placeholder fails; every entry before it succeeds |
| EditorProjects.EditorProject.constructor | editor/editor_project.py:21-37 | a new project has the given name, no scenes, no active scene, no directory, the default settings and is clean |
| EditorProjects.EditorProject.MarkDirty | editor/editor_project.py:39-41 | mark_dirty sets the dirty flag and nothing else |
| EditorProjects.EditorProject.MarkClean | editor/editor_project.py:43-45 | mark_clean clears the dirty flag and nothing else |
| EditorProjects.EditorProject.AddScene | editor/editor_project.py:47-65 | the scene is stored under the first free id among the given id and its _1, _2 suffixes, appended to the order, the project marked dirty, and made active when none was |
| EditorProjects.EditorProject.RemoveScene | editor/editor_project.py:67-74 | removing a known scene deletes it, marks the project dirty, and hands the active role to the first remaining scene or to None; an unknown id changes nothing |
| EditorProjects.EditorProject.GetScene | editor/editor_project.py:76-78 | get_scene finds exactly the stored scenes |
| EditorProjects.EditorProject.GetActiveScene | editor/editor_project.py:80-84 | a falsy active id gives None; an unhashable one raises; otherwise the active scene is found when stored |
| EditorProjects.EditorProject.SetActiveScene | editor/editor_project.py:86-89 | set_active_scene switches only to a stored scene |
| EditorProjects.EditorProject.GetDirtyScenes | editor/editor_project.py:91-97 | the ids listed are exactly the dirty scenes, in dict order |
| EditorProjects.EditorProject.HasUnsavedChanges | editor/editor_project.py:99-103 | there are unsaved changes exactly when the project or some scene is dirty |
| EditorProjects.EditorProject.AddCustomComponentPath | editor/editor_project.py:105-109 | the path is appended to custom_component_paths and the project marked dirty only when absent; a malformed settings value raises Python's error |
| EditorProjects.EditorProject.AddCustomWidgetPath | editor/editor_project.py:111-115 | the path is appended to custom_widget_paths and the project marked dirty only when absent; a malformed settings value raises Python's error |
| EditorProjects.EditorProject.AddPath | editor/editor_project.py:105-115 | the shared step of both path adders updates settings and dirtiness as PathAdded gives |
| EditorProjects.EditorProject.SceneInfos | editor/editor_project.py:119-125 | serialize describes every scene by its name, file path and dirty flag |
| EditorProjects.EditorProject.Serialize | editor/editor_project.py:117-132 | the saved dict holds the name, the active scene id, the scene descriptions and the settings |
| EditorProjects.EditorProject.Deserialize | editor/editor_project.py:134-169 | loading takes the name, active id and settings with their defaults, fills in missing settings, and adds a placeholder scene per entry in order, stopping at the first error Python would raise |
| EditorProjects.EditorProject.LoadFromFile | editor/editor_project.py:196-209 | a file that does not decode re-raises its error and changes nothing; a non-dict document changes nothing; a dict sets the name, active scene and settings from the document and places each scene record, or keeps the scenes when they do not load; on success the directory is recorded and the project marked clean |
| EditorProjects.EditorProject.CreateNewScene | editor/editor_project.py:227-230 | a new empty scene with the given name is added under the first free id |
| EditorProjects.EditorProject.Copy | editor/editor_project.py:240-245 | the copy is a fresh scene loaded from the saved data, renamed, without a file and dirty; a load error gives no copy |
| EditorProjects.EditorProject.DuplicateScene | editor/editor_project.py:232-251 | corrected (Findings row 15): an unknown id or a failed reload gives None and changes nothing; otherwise the renamed copy is added under the first free id for the new name |
| EditorProjects.EditorProject.PlaceOne | editor/editor_project.py:165-169 | one loop step stores a fresh placeholder scene under its id, keeping the dict order |
| EditorProjects.EditorProject.PlaceScenes | editor/editor_project.py:162-169 | the loop stores a placeholder for every entry before the first failing one and reports that entry's error |
| EditorProjects.EditorProject.PlacedAt | editor/editor_project.py:162-169 | the loop's final state is the one Placed describes |
| EditorScenes.Properties | editor/editor_scene.py:116-124 | a component or widget property is saved exactly when its name is public, not in the skip list and its value is not callable |
| EditorScenes.ComponentsData | editor/editor_scene.py:106-126 | one saved record per component, in component order |
| EditorScenes.ActorData | editor/editor_scene.py:96-139 | no contract of its own, because a postcondition on this recursion slows the round-trip proofs; ActorDataEntries states the record's keys and values and ActorRoundTrip that it loads back |
| EditorScenes.ChildrenData | editor/editor_scene.py:129-131 | one saved record per child actor, in child order, each the child's own full record |
| EditorScenes.ActorsData | editor/editor_scene.py:64-67 | the scene's actor list is saved one record per actor, in scene order |
| EditorScenes.Get | editor/editor_scene.py:185-189 | a dictionary lookup with a default yields the stored value when the key is present and the default otherwise |
| EditorScenes.Pair | editor/editor_scene.py:230-232 | a saved position or scale is read back only from a two-element list or tuple of numbers |
| EditorScenes.Configured | editor/editor_scene.py:240-253 | a loaded component has the saved type name and the registered class's module and attribute set |
| EditorScenes.LoadComponent | editor/editor_scene.py:237-253 | a component record raises exactly when it is not a dict or its type is a list or dict (unhashable for the registry lookup); a loaded component has the saved type, which is registered, and that class's module and attribute names |
| EditorScenes.Applied | editor/editor_scene.py:245-251 | saved properties overwrite only attributes the fresh component already has; unknown names and values that fail to decode leave the default |
| EditorScenes.LoadedComponents | editor/editor_scene.py:235-258 | every saved component record is loaded independently and in order |
| EditorScenes.LoadedChildren | editor/editor_scene.py:261-265 | every saved child record is loaded independently and in order |
| EditorScenes.LoadActorWith | editor/editor_scene.py:219-267 | an actor loads only from a dict, under the saved name or "Actor" when none was saved; LoadFromEntries and ActorRoundTrip state the rest |
| EditorScenes.LoadActor | editor/editor_scene.py:219-267 | corrected (Findings row 14): the loader with child attachment available; no contract of its own, ActorRoundTrip and ChildDropsParent state what it does |
| EditorScenes.ChildDropsParent | editor/editor_scene.py:261-271 | as written a parent with one plain child fails to load (Actor has no addChild) while the corrected loader restores it |
| EditorScenes.AnyChildDropsParent | editor/editor_scene.py:261-271 | as written any actor record with at least one loadable child yields None |
| EditorScenes.LoadWithoutChildren | editor/editor_scene.py:261-267 | an actor record without children loads the same whether or not child attachment is available |
| EditorScenes.ComponentRoundTrip | editor/editor_scene.py:106-126 | a component of a registered type whose properties survive encoding is loaded back equal to itself |
| EditorScenes.TagsRoundTrip | editor/editor_scene.py:225-226 | re-adding a saved list of distinct tags restores exactly that tag list |
| EditorScenes.CreatedAll | editor/editor_scene.py:237-253 | when every component record loads the actor receives all of them in order |
| EditorScenes.PresentAll | editor/editor_scene.py:262-265 | when every child record loads the actor receives all children in order |
| EditorScenes.ActorRoundTrip | editor/editor_scene.py:96-139 | loading the saved record of a restorable actor tree gives back the same actor with its tags transform components and children |
| EditorScenes.ComponentsRoundTrip | editor/editor_scene.py:106-126 | every component of a restorable list loads and together they give back the list |
| EditorScenes.LoadActorParts | editor/editor_scene.py:219-267 | an actor round trip follows from its tags components and children round-tripping |
| EditorScenes.ActorDataEntries | editor/editor_scene.py:133-139 | a saved actor record carries the name tags transform components and children keys with the actor's values |
| EditorScenes.LoadFromEntries | editor/editor_scene.py:219-267 | a record whose name tags transform components and children load to an actor's parts loads to that actor |
| EditorScenes.WidgetData | editor/editor_scene.py:141-170 | no contract of its own, for the same reason as ActorData; WidgetDataEntries states the record's keys and values and WidgetRoundTrip that it loads back |
| EditorScenes.WidgetChildrenData | editor/editor_scene.py:167-168 | one saved record per child widget, in child order |
| EditorScenes.WidgetsData | editor/editor_scene.py:70-74 | the root widgets are saved one record per widget, in order |
| EditorScenes.RectFrom | editor/editor_scene.py:282-283 | a saved rectangle is read back only from a four-element list or tuple of integers |
| EditorScenes.LoadWidget | editor/editor_scene.py:273-310 | a widget loads only from a dict whose type is a registered widget class, and takes that class's module and attribute names |
| EditorScenes.LoadedWidgets | editor/editor_scene.py:304-308 | every saved child widget record is loaded independently and in order |
| EditorScenes.PresentWidgetsAll | editor/editor_scene.py:305-308 | when every child widget record loads the widget receives all children in order |
| EditorScenes.WidgetAttrsRoundTrip | editor/editor_scene.py:156-164 | the saved properties of a restorable widget re-applied to a fresh widget of its class restore its attributes |
| EditorScenes.WidgetRoundTrip | editor/editor_scene.py:141-170 | loading the saved record of a restorable widget tree gives back the same widget |
| EditorScenes.LoadWidgetParts | editor/editor_scene.py:273-310 | a widget round trip follows from its class its attributes and its children round-tripping |
| EditorScenes.WidgetDataEntries | editor/editor_scene.py:143-153 | a saved widget record carries the type rect name visible enabled properties and children keys with the widget's values |
| EditorScenes.LoadWidgetFromEntries | editor/editor_scene.py:273-310 | a record whose entries load to a widget's parts loads to that widget |
| EditorScenes.SceneData | editor/editor_scene.py:60-90 | corrected (Findings row 15): the saved scene has exactly the metadata, name, actors, ui, lambda_scripts and physics keys, the given name and metadata, one actor record per actor and one widget record per root widget |
| EditorScenes.SerializeRaisesWithAnyActor | editor/editor_scene.py:60-94 | as written serialising succeeds exactly for a scene without actors and otherwise raises AttributeError; with no actors it equals the corrected record |
| EditorScenes.Iterated | editor/editor_scene.py:189-190 | iterating a saved value fails exactly when it is not a list tuple dict or string and a list yields its items |
| EditorScenes.NamesOf | editor/editor_scene.py:190-193 | the names of the scene's actors in order |
| EditorScenes.LoadedActors | editor/editor_scene.py:189-193 | every saved actor record is loaded independently and in order |
| EditorScenes.LoadedRoots | editor/editor_scene.py:196-201 | every saved root widget record is loaded independently and in order |
| EditorScenes.AddLoadedDistinct | editor/editor_scene.py:190-193 | adding loaded actors keeps actor names distinct and never disturbs actors already in the scene |
| EditorScenes.AddLoadedAll | editor/editor_scene.py:190-193 | loaded actors with fresh distinct names are all appended in order without error |
| EditorScenes.AddWidgets | editor/editor_scene.py:198-201 | the root widget list grows by the widgets that loaded, in order |
| EditorScenes.LoadScene | editor/editor_scene.py:172-217 | the scene is marked clean exactly when loading raised nothing |
| EditorScenes.LoadEntries | editor/editor_scene.py:185-213 | the scene is marked clean exactly when loading its entries raised nothing |
| EditorScenes.SceneRoundTrip | editor/editor_scene.py:60-217 | loading a saved restorable scene restores its actors and root widgets and leaves it clean |
| EditorScenes.ObjectsOf | editor/editor_scene.py:65 | the scene's actor ids resolved to actors in order |
| EditorScenes.EditorScene.Actors | editor/editor_scene.py:65 | the scene's actors in scene order |
| EditorScenes.EditorScene.constructor | editor/editor_scene.py:31-40 | a new editor scene is empty clean without file path and carries the default metadata |
| EditorScenes.EditorScene.MarkDirty | editor/editor_scene.py:42-44 | sets the dirty flag and changes nothing else |
| EditorScenes.EditorScene.MarkClean | editor/editor_scene.py:46-48 | clears the dirty flag and changes nothing else |
| EditorScenes.EditorScene.AddActor | editor/editor_scene.py:50-53 | a new name is appended indexed by name and tag and marks the scene dirty; a taken name raises ValueError and changes nothing |
| EditorScenes.EditorScene.AddObject | editor/editor_scene.py:52 | the scene's addActor: append and index a new name or raise ValueError on a taken one |
| EditorScenes.EditorScene.RemoveActor | editor/editor_scene.py:55-58 | removing an unknown actor raises ValueError and leaves the flag; a present actor is removed from the list and the name index and the scene becomes dirty |
| EditorScenes.EditorScene.Serialize | editor/editor_scene.py:60-90 | corrected (Findings row 15): the saved record holds the metadata name actors root widgets and scripts of the scene |
| EditorScenes.EditorScene.Deserialize | editor/editor_scene.py:172-217 | corrected (Findings row 14): the scene is replaced by what the record loads, its name and metadata taken from the record with defaults, and marked clean only on success |
| EditorScenes.EditorScene.LoadContents | editor/editor_scene.py:185-213 | an emptied scene receives exactly the actors and widgets the entries load |
| EditorScenes.EditorScene.AddActors | editor/editor_scene.py:190-193 | loaded actors are added in order until a name clash raises ValueError |
| EditorScenes.EditorScene.AddWidgetList | editor/editor_scene.py:198-201 | every widget that loaded is appended to the widget and root lists |
| EditorScenes.EditorScene.SaveToFile | editor/editor_scene.py:316-328 | corrected (Findings row 15): the written record is the scene's saved form; the path is remembered and the scene marked clean |
| EditorScenes.EditorScene.LoadFromFile | editor/editor_scene.py:330-342 | corrected (Findings row 14): an unreadable file raises and changes nothing; otherwise the scene is loaded and the path remembered and the flag cleared only on success |
| Editor.Widget.constructor | editor/editor.py:257-259 | a new element carries the saved name rect and both flags |
| Editor.IndexedNone | editor/editor.py:99-102 | an actor without tags leaves the tag index as it was |
| Editor.UnindexedNone | editor/editor.py:115-119 | removing an actor without tags leaves the tag index as it was |
| Editor.IndexedStep | editor/editor.py:99-102 | one more tag creates its bucket when missing and appends the actor to it |
| Editor.UnindexedStep | editor/editor.py:115-119 | one more tag takes the first copy of the actor out of its bucket and deletes the bucket once empty |
| Editor.UnindexedSkip | editor/editor.py:115-116 | a tag without a bucket is skipped by removal |
| Editor.IndexedMembers | editor/editor.py:99-102 | after adding, every tag of the actor has a bucket holding it, earlier members stay, buckets of other tags are unchanged and no bucket is empty |
| Editor.UnindexedMembers | editor/editor.py:115-119 | after removing, buckets of other tags are unchanged, each bucket of the actor's tags is one shorter or deleted and no longer holds it, and no bucket is empty |
| Editor.LeftKeys | editor/editor.py:115-119 | removal after addition deletes exactly the buckets addition created |
| Editor.UnindexUndoesIndex | editor/editor.py:98-119 | removing an actor with the tags it was added with restores the tag index |
| Editor.RectOf | editor/editor.py:253-254 | a saved rect is read from the first four integer entries of a list or tuple or from a rect; other values give no rect |
| Editor.UIFromData | editor/editor.py:249-264 | a dict with a usable rect and a string name gives an element with that name and rect and the saved or default flags; anything else gives None |
| Editor.UIFromDataAsWritten | editor/editor.py:249-264 | as written every call gives None because the abstract Widget cannot be instantiated |
| Editor.UIRoundTrip | editor/editor.py:204-264 | an element the editor saved loads back as itself |
| Editor.UIDefaults | editor/editor.py:253-259 | an empty dict gives an element named UIElement at (0 0 100 30) visible and enabled |
| Editor.AsWrittenLosesSavedElement | editor/editor.py:249-264 | as written even an element the editor saved itself is dropped on load while the corrected loader restores it |
| Editor.UIEntries | editor/editor.py:240 | the saved UI entries are the items of a list or tuple and nothing otherwise |
| Editor.ActorClassCall | editor/editor.py:48 | an attribute read on the imported Actor class succeeds exactly for the methods engine/actor/actor.py defines, and raises AttributeError otherwise |
| Editor.ActorLoadersMissing | editor/editor.py:229-233 | neither createFromSerializedData nor establishRelationshipsFromSerialization exists on the imported Actor |
| Editor.LoadErrorAsWritten | editor/editor.py:226-233 | a saved actor list that cannot be iterated gives TypeError; any other gives AttributeError |
| Editor.Parsed | editor/editor.py:240-243 | only entries that parse give elements, each from some saved entry, never more elements than entries |
| Editor.EditorScene.constructor | editor/editor.py:56-81 | a new scene is empty active and not paused with an empty script list for each of the eight lifecycle events |
| Editor.EditorScene.AddActor | editor/editor.py:83-102 | the actor is renamed to the first free name, linked to the scene, appended, indexed by name and joins the bucket of each tag |
| Editor.EditorScene.JoinTags | editor/editor.py:98-102 | the tag loop adds the actor to one bucket per tag and leaves no bucket empty |
| Editor.EditorScene.RemoveActor | editor/editor.py:104-119 | an unknown name raises ValueError and changes nothing; a known one unlinks the actor, removes it from the list, the name index and every tag bucket, or raises from list.remove when it is not listed |
| Editor.EditorScene.AddUIElement | editor/editor.py:121-132 | the element is renamed to the first free name, appended and indexed by name |
| Editor.EditorScene.RemoveUIElement | editor/editor.py:134-140 | an unknown name raises ValueError; otherwise the element leaves the list and the name index, or list.remove raises and nothing changes |
| Editor.EditorScene.AddLambdaScript | editor/editor.py:142-147 | a script is appended for a known lifecycle event and any other event changes nothing |
| Editor.EditorScene.RemoveLambdaScript | editor/editor.py:149-152 | the first copy of a present script of a known event is removed and nothing else changes |
| Editor.EditorScene.ClearLambdaScripts | editor/editor.py:154-157 | the script list of a known event becomes empty and other events are untouched |
| Editor.EditorScene.AddLoaded | editor/editor.py:236-237 | adding the next loaded actor keeps every earlier one indexed by name and tag |
| Editor.EditorScene.AddAll | editor/editor.py:235-237 | the loaded actors become the scene's actors in order, each indexed by name and tag |
| Editor.EditorScene.AddParsed | editor/editor.py:240-243 | each parsed element is added as a fresh widget with its rect and flags and is found under its name |
| Editor.EditorScene.Build | editor/editor.py:227-230 | corrected (Findings row 18): one fresh parentless actor per saved entry with that entry's tags |
| Editor.EditorScene.LoadActors | editor/editor.py:226-237 | corrected (Findings row 18): an emptied scene receives one fresh actor per saved entry in order, each indexed by name and tag |
| Editor.EditorScene.LoadUI | editor/editor.py:239-243 | an emptied scene receives one element per parsed entry, each under its own name |
| Editor.EditorScene.LoadRest | editor/editor.py:226-247 | corrected (Findings row 18): after the actors a non-iterable UI list raises and leaves no elements and the flags; otherwise the parsed elements are added and active and paused are read |
| Editor.EditorScene.Deserialize | editor/editor.py:217-247 | corrected (Findings row 18): the scene is cleared then refilled from the saved actors and elements and flags; a non-iterable saved list raises TypeError and stops the load there |
| Editor.EditorScene.DeserializeAsWritten | editor/editor.py:217-233 | as written the scene is emptied and the load then raises: TypeError for a saved actor list that cannot be iterated, otherwise AttributeError from the missing Actor loader; active, paused and the scripts are kept |
| Editor.RecentFront | editor/editor.py:303-309 | the added path heads the recent list which keeps at most ten entries all from the earlier list or the path |
| Editor.RecentNoDup | editor/editor.py:303-309 | a recent list without repeats stays without repeats so the path is listed once |
| Editor.RecentIdempotent | editor/editor.py:303-309 | adding the same path twice is the same as adding it once |
| Editor.RecentKeepsOthers | editor/editor.py:303-309 | in a short list without the path the other entries keep their order behind it |
| Editor.EditorSettings.constructor | editor/editor.py:290-291 | a new settings store is empty |
| Editor.EditorSettings.GetValue | editor/editor.py:293-294 | the stored value for the key or the default |
| Editor.EditorSettings.SetValue | editor/editor.py:296-297 | stores the value under the key and changes no other key |
| Editor.EditorSettings.GetRecentFiles | editor/editor.py:299-301 | the stored recent list when it is a list and an empty list otherwise |
| Editor.EditorSettings.AddRecentFile | editor/editor.py:303-309 | the path moves to the front without its earlier copy and the list is cut to ten; no other setting changes |
| Editor.ChainTail | editor/editor.py:1204-1212 | the rest of a parent chain is the chain of its first actor |
| Editor.ChainUnique | editor/editor.py:1204-1212 | an actor has exactly one parent chain |
| Editor.NotOwnAncestor | editor/editor.py:1204-1212 | no actor with a finite parent chain is among its own ancestors |
| Editor.SuffixChain | editor/editor.py:1204-1212 | the chain of the k-th ancestor is what follows it |
| Editor.IsDescendant | editor/editor.py:1204-1212 | the walk up the parents answers true exactly when the ancestor is on the actor's parent chain |
| Editor.DropAllowedAsWritten | editor/editor.py:1194-1197 | as written a drop on a row re-parents unless the dragged actor is an ancestor of the target; the target itself is not excluded |
| Editor.DropAllowed | editor/editor.py:1194-1197 | the intended guard: re-parent only onto an actor that is neither the dragged actor nor one of its descendants |
| Editor.SelfDropAsWritten | editor/editor.py:1194-1197 | as written dropping an actor onto its own row passes the guard |
| Editor.SelfDropRefused | editor/editor.py:1194-1197 | the intended guard refuses dropping an actor onto itself |
| EditorTools.Named | editor/editor_tools.py:88-89 | the number of actors sharing a name never exceeds the number of actors |
| EditorTools.ValidateScene | editor/editor_tools.py:71-136 | the loops produce exactly the reports of the validation rules: one error without a scene, otherwise actor, widget and script reports in that order, with the failure entry replacing what an exception cut off |
| EditorTools.ValidateRest | editor/editor_tools.py:103-136 | after the actors, the pass reports the widget issues and then the script syntax errors; a missing widget list or a widget without a rect ends it with one failure entry |
| EditorTools.ValidateActors | editor/editor_tools.py:80-101 | the actor loop reports each actor's checks in actor order |
| EditorTools.ValidateActor | editor/editor_tools.py:81-101 | one actor yields its no-name warning, its duplicate warning and one error per component without enabled, in that order |
| EditorTools.ValidateWidgets | editor/editor_tools.py:104-116 | the widget loop reports missing rects and non-positive sizes and stops at the first widget without a rect |
| EditorTools.ValidateScripts | editor/editor_tools.py:119-128 | every lambda script that fails to compile yields one syntax error, in event and script order |
| EditorTools.StoppedStays | editor/editor_tools.py:106-112 | once a widget without a rect has raised, later widgets add nothing |
| EditorTools.ActorsIssuesMembers | editor/editor_tools.py:80-101 | a report is among the actor reports exactly when some actor's own checks produce it |
| EditorTools.ActorOf | editor/editor_tools.py:80-101 | each actor report can be traced to the actor that produced it |
| EditorTools.ActorsIssuesHas | editor/editor_tools.py:80-101 | every report of an actor appears among the reports of the scene's actors |
| EditorTools.AllChecks | editor/editor_tools.py:80-101 | one list of checks per actor |
| EditorTools.ActorsIssuesConcat | editor/editor_tools.py:80-101 | the actor reports are the concatenation of each actor's checks in actor order |
| EditorTools.MissingOfShape | editor/editor_tools.py:96-101 | every missing-enabled report is an error beginning "Component" |
| EditorTools.WidgetsShape | editor/editor_tools.py:104-116 | every widget report begins "UI widget" |
| EditorTools.ScriptsShape | editor/editor_tools.py:119-128 | every script report is an error beginning "Syntax" |
| EditorTools.ScriptShape | editor/editor_tools.py:121-128 | every report for one event's scripts is an error beginning "Syntax" |
| EditorTools.UnnamedIndex | editor/editor_tools.py:84 | the no-name warning identifies the actor index it reports |
| EditorTools.DuplicateText | editor/editor_tools.py:92 | the duplicate warning identifies the name it reports |
| EditorTools.LambdaShape | editor/editor_tools.py:119-128 | the lambda-script reports are errors beginning "Syntax" |
| EditorTools.RestShape | editor/editor_tools.py:103-134 | what follows the actor reports is a widget report or an error |
| EditorTools.UnnamedOwn | editor/editor_tools.py:81-85 | an actor's checks hold a no-name warning for index j exactly when j is that actor and its name is empty or blank |
| EditorTools.UnnamedWarning | editor/editor_tools.py:81-85 | validation warns about actor i having no name exactly when its name is empty or whitespace |
| EditorTools.DuplicateOwn | editor/editor_tools.py:88-93 | an actor's checks hold a duplicate warning for a name exactly when that is its own name and another actor shares it |
| EditorTools.DuplicateWarning | editor/editor_tools.py:88-93 | validation warns about a duplicate name exactly when some actor with that name shares it with another actor |
| EditorTools.WidgetsPrefix | editor/editor_tools.py:105-116 | the reports of the first widgets are a prefix of the reports of more widgets, and a stop is never undone |
| EditorTools.InvalidSizeWarning | editor/editor_tools.py:112-116 | a widget with width or height at most zero that the pass reaches yields an invalid-size warning |
| EditorTools.ReachedAll | editor/editor_tools.py:106-112 | with a rect on every earlier widget the pass has not stopped |
| EditorTools.NotFailure | editor/editor_tools.py:130-134 | a report beginning with the letter of an ordinary check is never the failure entry |
| EditorTools.ActorsNotFailure | editor/editor_tools.py:80-101 | no actor report looks like the failure entry |
| EditorTools.ActorChecksLead | editor/editor_tools.py:81-101 | every actor report begins "Actor", "Multiple" or "Component" |
| EditorTools.FailureIsLast | editor/editor_tools.py:130-136 | an exception during validation yields exactly one failure error, placed last, and nothing else looks like it; it appears exactly when validation raises |
| EditorTools.Reported | editor/editor_tools.py:103-134 | the reports after the actors are the ordinary ones followed by the failure entry when validation raises |
| EditorTools.ReportedShape | editor/editor_tools.py:103-128 | the ordinary reports after the actors begin "UI widget" or "Syntax" |
| Lobby.Newest | game/scenes/lobby.py:341-345 | the trimmed log has at most twenty lines and never more than the untrimmed one |
| Lobby.NewestOfSuffix | game/scenes/lobby.py:341-345 | trimming depends only on the last twenty lines: any suffix of at least twenty lines trims to the same log |
| Lobby.NewestAbsorbs | game/scenes/lobby.py:341-345 | trimming before more lines arrive keeps everything that trimming afterwards would keep |
| Lobby.AppendedIsNewest | game/scenes/lobby.py:338-345 | adding lines one at a time and trimming after each leaves the newest twenty lines of the whole history |
| Lobby.NewestEndsWith | game/scenes/lobby.py:338-345 | the last line added is always the last line of the log |
| Lobby.Unseen | game/scenes/lobby.py:155-173 | the set differences of the roster update, in first-appearance order: exactly the names of xs outside seen, without repeats |
| Lobby.RemoveFirst | game/scenes/lobby.py:133 | list.remove: one element fewer, the same multiset less one occurrence of x |
| Lobby.RemoveFirstLeaves | game/scenes/lobby.py:133 | on a roster without repeats, removing a player leaves every other player and not that one |
| Lobby.LobbyScene.constructor | game/scenes/lobby.py:11-20 | Player1 alone on the roster, four places, empty chat, not the host |
| Lobby.LobbyScene.AddChatMessage | game/scenes/lobby.py:338-345 | the formatted line joins the log, which then holds its newest twenty lines |
| Lobby.LobbyScene.Push | game/scenes/lobby.py:341-345 | appends the line and trims the log to its newest twenty lines |
| Lobby.LobbyScene.AddChatLines | game/scenes/lobby.py:167-173 | a loop of adds leaves the log as the newest twenty lines of the old log and all the new lines |
| Lobby.LobbyScene.OnEnter | game/scenes/lobby.py:22-78 | sets the role from the manager, keeps or resets the roster, shows the welcome lines; the host starts hosting or loses the host role when that fails; a connected client requests the state and announces itself; without a manager it fails with AttributeError after the host lines |
| Lobby.LobbyScene.EnterAsHost | game/scenes/lobby.py:51-60 | the host branch of on_enter: the outcome of starting the server decides connected and isHost |
| Lobby.LobbyScene.EnterAsClient | game/scenes/lobby.py:61-78 | the client branch of on_enter: the two messages are sent only when connected |
| Lobby.LobbyScene.OnNetworkChatMessage | game/scenes/lobby.py:96-100 | another player's line is added to the log; the player's own line is not echoed |
| Lobby.LobbyScene.OnNetworkPlayerJoined | game/scenes/lobby.py:102-124 | on the host a new name is appended once, announced and the roster broadcast; a name already present or a client changes nothing; without ui it raises AttributeError after the roster change |
| Lobby.LobbyScene.OnNetworkPlayerLeft | game/scenes/lobby.py:126-148 | on the host a present name loses its first entry, is announced and the roster broadcast; otherwise nothing changes |
| Lobby.LobbyScene.OnNetworkLobbyUpdate | game/scenes/lobby.py:150-176 | a roster sent by "Server" replaces the local one and a client announces who joined and left; max_players is taken whenever present |
| Lobby.LobbyScene.OnLobbyStateRequest | game/scenes/lobby.py:178-191 | only a host with a manager answers, with its roster and max players |
| Lobby.LobbyScene.OnLobbyShutdown | game/scenes/lobby.py:193-209 | a client shows the reason (or "Unknown reason"), disconnects and goes back; the host ignores it |
| Lobby.LobbyScene.OnNetworkGameStart | game/scenes/lobby.py:211-215 | the start is announced and the game scene requested |
| Lobby.LobbyScene.CheckNetworkConnection | game/scenes/lobby.py:231-243 | a client whose manager lost the connection says so, is marked disconnected and goes back |
| Lobby.LobbyScene.OnChatChanged | game/scenes/lobby.py:347-349 | the current message becomes the input's text |
| Lobby.LobbyScene.SendChatMessage | game/scenes/lobby.py:359-373 | a non-blank message is shown, sent when connected and cleared; a blank one is neither shown nor sent |
| Lobby.LobbyScene.OnStartClicked | game/scenes/lobby.py:375-390 | only the host starts: announced, broadcast when connected, game scene requested |
| Lobby.LobbyScene.ShutdownLobby | game/scenes/lobby.py:413-433 | a connected host sends lobby_shutdown at instant priority and disconnects; the line is always shown |
| Lobby.LobbyScene.OnLeaveClicked | game/scenes/lobby.py:392-411 | the host shuts down, a connected client sends player_leave and disconnects, then the scene is popped |
| Lobby.LobbyScene.OnExit | game/scenes/lobby.py:512-538 | while connected, the host shuts down and a client says goodbye and disconnects |
| Lobby.LobbyScene.SimulatePlayerJoin | game/scenes/lobby.py:435-440 | a name is added only while below max_players and not already present |
| Lobby.LobbyScene.SimulatePlayerLeave | game/scenes/lobby.py:442-447 | a present name loses its first entry and the departure is announced |
| Lobby.LobbyScene.Update | game/scenes/lobby.py:449-474 | a client that lost its host logs it and pops the scene; the demo timer starts at the first update and, when not connected, adds a player after ten seconds with fewer than three players, logs the join and resets; every field's new value is given |
| Lobby.LobbyScene.HandleKey | game/scenes/lobby.py:493-510 | a key the ui did not take: Escape pops the scene, F1 on the host loads the game |
| Lobby.ChatTwice | game/scenes/lobby.py:338-345 | two adds in turn equal trimming the log with both lines appended |
| Lobby.NoSelfAnnouncement | game/scenes/lobby.py:163-173 | a client never announces its own arrival or departure |
| Lobby.AnnouncedAll | game/scenes/lobby.py:163-173 | every other name that arrives or leaves in a roster change is announced |
| JoinLobby.ParseInt | game/scenes/join_lobby.py:151 | int() of a stripped string: only a non-empty string can be read |
| JoinLobby.Unsigned | game/scenes/join_lobby.py:151 | a value exactly when the digits are grouped by single underscores |
| JoinLobby.Validate | game/scenes/join_lobby.py:138-157 | an accepted address is the stripped text and an accepted port lies in 1..65535 |
| JoinLobby.ParseDigits | game/scenes/join_lobby.py:151 | int() of plain digits is their decimal value |
| JoinLobby.ParseNegative | game/scenes/join_lobby.py:151 | int() of a minus sign and digits is the negated value |
| JoinLobby.ParseIntToString | game/scenes/join_lobby.py:151 | int(str(i)) == i for every integer |
| JoinLobby.ParseIntAlphabet | game/scenes/join_lobby.py:150-157 | anything int() reads holds only a leading sign, digits and underscores, and at least one digit |
| JoinLobby.UnderscoreExamples | game/scenes/join_lobby.py:151 | "8_080" reads as 8080, doubled, leading or trailing underscores and a bare sign are refused, a sign is kept |
| JoinLobby.ValidateAccepts | game/scenes/join_lobby.py:141-157 | the checks accept exactly a non-blank address with a port read as 1..65535, and then that port |
| JoinLobby.BlankRejected | game/scenes/join_lobby.py:141-148 | an all-whitespace address is refused whatever the port; an all-whitespace port is refused next |
| JoinLobby.OutOfRangeRejected | game/scenes/join_lobby.py:150-154 | a number outside 1..65535 is refused with the range message, one inside is accepted |
| JoinLobby.PortFieldAlwaysNumber | game/scenes/join_lobby.py:88-89 | what the port field can hold is never refused as "not a valid number"; only the range can refuse it |
| JoinLobby.PortCharsAreDigits | game/scenes/join_lobby.py:88 | allowed_chars is exactly the decimal digits |
| JoinLobby.PortFieldInsert | game/scenes/join_lobby.py:88-89 | typing into the port field keeps it at most five digits |
| JoinLobby.PortFieldDelete | game/scenes/join_lobby.py:88-89 | deleting in the port field keeps it digits only |
| JoinLobby.InitialPortAccepted | game/scenes/join_lobby.py:82 | the initial port "12345" passes every check with any non-blank address |
| JoinLobby.InitialPortValue | game/scenes/join_lobby.py:82-89 | the initial port is five digits worth 12345, within the field's limits |
| JoinLobby.JoinLobbyScene.constructor | game/scenes/join_lobby.py:9-13 | no ui and no input fields yet, white empty status |
| JoinLobby.JoinLobbyScene.OnEnter | game/scenes/join_lobby.py:15-39 | the fields exist and the status label is empty and white |
| JoinLobby.JoinLobbyScene.ShowStatus | game/scenes/join_lobby.py:185-194 | the label shows the message, light red for errors and light green otherwise |
| JoinLobby.JoinLobbyScene.OnConnectPressed | game/scenes/join_lobby.py:133-178 | without fields nothing happens; a refused check shows its message in red with no attempt; an accepted one connects when there is a manager and goes to the lobby on success, or goes to the lobby for testing without one |
| JoinLobby.JoinLobbyScene.Connect | game/scenes/join_lobby.py:159-178 | after the checks: one connect_to_server call with the stripped address, the number read and "player" when there is a manager |
| JoinLobby.JoinLobbyScene.OnBackClicked | game/scenes/join_lobby.py:180-183 | the scene is popped when there is a game |
| JoinLobby.JoinLobbyScene.HandleKey | game/scenes/join_lobby.py:210-220 | a key the ui did not take: Escape pops the scene |
| JoinLobby.AttemptOnlyWhenAccepted | game/scenes/join_lobby.py:141-164 | a connection attempt implies a non-blank address and port and a port int() reads as 1..65535 |

## Left out

- Rendering: every pygame drawing call, surface, font and image decode; sprites and surfaces are values that record how they were made.
- Sockets, threads, the select loop and JSON over the wire: each connection is an outbound queue and received messages arrive as decoded values.
- The clock (time.time, time.strftime), uuid4 and random choices: they are parameters of the operations that read them.
- Floating-point geometry (vector rotation, angles, square roots, easing curves): it is a parameter where the control flow depends on it, and it is not modelled otherwise.
- The interpreter's recursion limit: the recursive widget, transform and UI-manager walks carry a `fuel` or `depth` budget, and running out of it is the RecursionError the interpreter would raise. CoreActor's tag search (TaggedAmong) instead stops at its bound and returns what it found; FindsAllTaggedDescendants shows the bound loses nothing on a hierarchy shallower than it.
- Python callbacks: a callback is an id or a flag, the calls made are recorded in order, and what the callback itself does is outside the model.
- ExampleComponents.StateComponent state_data (editor/examples/custom_components.py:232): the dict handed to the enter, exit and update hooks is not modelled, since only the hooks read or change it.
- InputManager.setup_default_bindings (engine/input/input_manager.py:267-287): a fixed list of bind_key and bind_mouse calls, each modelled by BindKey and BindMouse; the list itself is not.
- InputManager.get_movement_vector (engine/input/input_manager.py:289-306): normalising the vector needs a square root on floats.
- InputManager.save_bindings and load_bindings (engine/input/input_manager.py:308-336): file I/O and JSON.
- InputManager._process_action_handlers (engine/input/input_manager.py:183-188): handlers are opaque callables; only their registration is modelled.
- ClickableComponent.set_click_callback and set_drag_callbacks (engine/builtin/components/clickable_component.py:53-71): plain setters of opaque callables, of the same shape as SetHoverCallbacks; callbacks are flags in the model.
- TilemapComponent.render, _get_visible_chunks, _render_chunk, _generate_chunk_cache, _get_tile_surface (game/components/tilemap_component.py:324-445): pygame drawing and camera culling; only the re-render marks set by set_tile are kept.
- TilemapComponent collision bodies: pymunk bodies and shapes are modelled as boxes of tiles (position, size, kind); friction, elasticity and collision type are kept as settings only.
- TilemapComponent chunk keys: the "x,y" strings of serialize_for_network are modelled as integer pairs, so a malformed key string is not modelled.
- apply_easing, _set_property_value, _update_sine_wave_property, _set_property_direct (engine/rendering/enhanced_animation.py:36-89 and 541-636): floating-point curves written through reflection onto components; the model keeps which animations are live, not the values they write.
- _load_frame_surface, _update_sprite_component (engine/rendering/enhanced_animation.py:342-374 and 691-709): image loading and pygame surfaces.
- save_animation_file, create_animation_template (engine/rendering/enhanced_animation.py:788-966): YAML/JSON file output.
- load_animation_file: the file path, existence check and YAML/JSON decoding are outside the model; LoadData takes the decoded document; frame_events, whose integer keys a decoded document cannot carry as a Value, are passed beside it.
- Animations parsing: a field whose value has a type other than the dataclass annotation makes the parse fail, where Python would store it unchecked.
- AssetManager.createSurface, createGradient (engine/core/asset_manager.py:239-273): pygame surface drawing.
- AssetManager.preloadAssets, autoloadAssets (engine/core/asset_manager.py:297-326): directory listing and dispatch to the modelled loaders.
- AssetManager.setDefaultFont, getDefaultFont (engine/core/asset_manager.py:347-371): pygame font objects created outside the caches.
- AssetManager.getSound, getData (engine/core/asset_manager.py:201-212): dictionary lookups of the same shape as GetImage.
- AssetManager._createDirectories, _getFullPath and the .json default suffix of loadData: file-system paths; file existence is the `existing` parameter and decoded contents are parameters.
- MovementComponent (editor/examples/custom_components.py:82-146): trigonometric motion of an actor transform in floating point.
- setup_logging, show_error, show_warning, show_info, ask_yes_no, show_error_with_logging, show_warning_with_logging (editor/editor_utils.py:19-66 and 391-417): logging and Qt message boxes.
- get_engine_components, get_engine_widgets, load_custom_components, load_custom_widgets (editor/editor_utils.py:135-302): dynamic code loading with exec and importlib.
- serialize_object (editor/editor_utils.py:304-312): an object's own serialize method and __dict__ are the `objectForm` parameter of Serialize.
- EditorCommand (editor/editor_utils.py:121-133): commands are opaque values whose execute and undo are recorded as effects.
- EditorProject.save_to_file, load_scene_content (editor/editor_project.py:171-194 and 211-225): file output and existence checks around scene saving and loading, which the scene model covers as values.
- EditorScenes: the engine Scene has neither lambda_scripts nor physicsSpace, so the saved record always carries an empty script map and the fallback gravity, and loading ignores both (77-88, 204-211).
- EditorScenes: dir()/getattr property reflection (116-124, 156-164) is modelled as an attribute map plus a skip set; serialize_value is the parameter f.
- EditorScenes: logging calls and file I/O in save_to_file and load_from_file (316-342); the file contents are a parameter.
- Editor: execute_lambda_scripts (159-192) runs Python exec and is not modelled; serialize (194-215) is modelled for UI elements only (UIData): the Actor imported at line 48 has no serialize method, so as written serialize raises AttributeError for any scene holding an actor, and that path is not modelled.
- Build, LoadActors and LoadRest (Editor.EditorScene): Actor.createFromSerializedData and establishRelationshipsFromSerialization (227-233) do not exist on the imported Actor (Findings row 18); the corrected load takes the names and tags of the actors they would build as a parameter, and how they would link parents is not modelled.
- Editor: QSettings persistence behind EditorSettings (290-297) is an in-memory map; the undo commands, registries and Qt widgets of editor.py are not modelled.
- Editor: dropEvent's signal emission and the drop on empty space (1182-1202) are not modelled; only the guard is.
- EditorTools: PerformanceMonitor and ToolsWidget (30-66, 138-479) are Qt UI and not modelled; exception texts (SyntaxError, AttributeError messages) are parameters.
- The ActorTreeWidget, PropertyEditor, ComponentListWidget, UIElementManager, ImportDialog, LambdaScriptManager and SceneEditor windows of editor/editor.py (586-2400), the undo commands (312-380) and the ComponentRegistry (381-585): Qt user interface and dynamic imports around the modelled data structures.
- editor/editor_tools.py ToolsWidget._validate_scene (373-403): it only shows the validator's entries in a Qt tree.
- engine/core/actor.py: the Component lifecycle hooks and the actor's update, fixed_update, render and handle_event passes (78-102, 312-367) forward to the components and children in order without changing the modelled state; update_transform (303-311) and Transform.calculate_world_transform are floating-point geometry, except for the no-parent case.
- engine/core/actor.py Component._is_json_serializable (187-195): json.dumps is not modelled; the values it refuses are the opaque and callable Value cases.
- engine/core/scene.py: the pymunk physics world (41-95), background colour and image (197-204), create_actor and destroy_actor (170-182; create_actor calls add_actor, destroy_actor calls remove_actor and then actor.destroy()), get_components (161-169), fixed_update, handle_event, render and the empty lifecycle hooks (215-269, 343-358).
- engine/scene/scene.py: the empty onEnter, onExit, onPause and onResume hooks (53-68), render and handleEvent (81-93).
- engine/game/game.py and engine/__init__.py: the pygame frame loop run (game.py 151-211) except for its fixed-timestep accumulator, quit, emitEvent's pygame event posting (141-146) and has_instance (__init__.py 130-133).
- engine/components.py: SpriteComponent, PhysicsComponent, AudioComponent and TextComponent (15-147, 199-243, 311-376) are rendering, floating-point physics and audio; health and input of the same file are modelled.
- engine/core/world/component.py: the empty lifecycle hooks and setActor (13-68); engine/component/component.py likewise (15-35).
- engine/core/world/actor.py getParent, handleEvent and render (128-141, 193-197): a field read and passes over the components.
- engine/component/builtin/transformComponent.py update, _update_children and serialize (142-182): passes over the children and the dict form of plain fields.
- engine/component/builtin/colliderComponent.py: the shape tests (139-180) are the `touching` parameter; is_colliding_with (205-208) is a membership test of the modelled contact set (get_all_collisions is AllCollisions); render_debug, render and update (224-269) draw or do nothing.
- engine/builtin/components/input_component.py serialize (221-227) and clickable_component.py _render (204-216): the dict of plain flags and debug drawing.
- engine/components/sprite_component.py render (84-121) and the pygame drawing of every ui widget: pixels are not modelled.
- engine/input/input_manager.py: is_key_down, is_mouse_button_down, get_mouse_position, get_mouse_delta, get_mouse_wheel and is_controller_button_down (190-250) are direct reads of the modelled sets and fields.
- engine/networking.py: NetworkClient's socket, threads and receive and send loops (89-160) are replaced by an outbound queue per connection; the handlers for spawn, destroy, actor update, component update and full-sync data and _send_full_sync (422-476) do nothing in that file, so routing a message to them changes nothing; get_network_manager (521-524) is the module singleton.
- engine/networking/network_components.py: the module-level wrappers and callbacks (497-499, 723-750) call the modelled manager methods.
- engine/network_utils.py: the module singletons and getters (363-389) and the example handle_spell_cast (343-347); the file imports time only at its end (line 390) and imports a NetworkPriority that engine/networking.py does not define, so the clock and the priority names are parameters.
- engine/ui.py and engine/rendering/ui.py: their Widget, Slider, TextInput and UIManager repeat engine/ui/widget.py, engine/ui/builtin and engine/ui/uiManager.py and are modelled once; the mouse-handling order of engine/ui.py is Widgets.DispatchSelfFirst. Panel, Label, Button and FPSDisplay are drawing and text and are not modelled.
- engine/ui/builtin/slider.py value getter (26-29), textInput.py get_text (89-92), uiManager.py lateUpdate (44-48), widget.py handle_child_event and lateUpdate (93-97, 135-143): field reads and passes that change no modelled state.
- game/scenes/lobby.py: setup_network_callbacks (80-95), create_lobby_ui and update_players_list (245-337), the chat button handlers (351-358) and render (476-492) are callback wiring and widgets; on_client_connected and on_client_disconnected (217-230) only print and refresh those labels.
- game/scenes/join_lobby.py create_buttons, update and render (95-132, 196-209): widgets and drawing. The file imports TextInput from engine.ui, which does not define one; the model uses the TextInput of engine/ui/builtin/textInput.py.
- DecodeInto (NetComponents): a component's received attributes are decoded all or nothing; Python's setattr loop has already set the attributes before the failing key when it raises, and those partial writes are not kept.
- ApplyOne (NetComponents): built on DecodeInto, so a component whose decoding raises keeps all its old attributes; ApplyAll keeps the components applied before it, as Python does.
- ApplyState (NetworkSync): a state that raises part-way gives None and the caller keeps the old actor; the flags, transform and earlier components Python has already written are not kept.
- Deserialized (NetworkSync): the same all-or-nothing result as ApplyState.
- DeserializeActorState (NetworkSync.NetworkComponent): on `raised` the state is as before the call, not Python's partly updated actor.
- Applied (NetworkSyncRegistry): on an exception the registry is unchanged, not partly updated.
- DestroyClientTarget, DestroyClientRemoves and HandleActorDestroyClient (NetworkSyncRegistry): the destroyed actor is recorded by id; actor.destroy()'s cascade (detaching from the parent, destroying the children, removing the components) is not modelled there.
- TilemapComponents.TilemapComponent.constructor requires a positive chunk_size: __init__ accepts any, and a chunk_size of 0 would raise ZeroDivisionError at the first set_tile (line 162); every chunk computation of the model assumes a positive size.
- Clear (Scenes.Scene): destroy_actor also calls actor.destroy() on each actor (engine/core/actor.py:368-384), which detaches it from its parent, destroys its children, removes its components and deactivates it; the model's Scene holds actor ids only, so Clear states the removal from the list, the lookup and the tag buckets and not that cascade.
- DeserializeActor (NetSerialization): deserialize_actor stores the sent name, id, active and enabled flags and a copy of the tags without checking their types (engine/networking/network_components.py:94-98); the model reads a string name and id, bool flags and a list of string tags, and returns Err for anything else.
- TagSet (WorldActor): set() of a list or tuple holding hashable items that are not strings succeeds in Python (engine/core/world/actor.py:214, 231); the model's tags are strings, so TagSet refuses such a list, and Load and CreateFromSerializedData raise on it.
- Pair, RectFrom, LoadActor and LoadWidget (EditorScenes): the loaders accept a narrower input than Python does and refuse the rest as an error: a non-string name, tags that are not a list of strings, a two-element iterable other than a two-number list for tuple(), a non-number rotation, children given as a str or a dict, a non-bool visible or enabled flag, and a float rect or the ((x, y), (w, h)) rect form.
- Unseen, ChangeLines and OnNetworkLobbyUpdate (Lobby): joins and leaves are announced in first-appearance order of the player lists; Python iterates set differences in hash order, so only the set of announced lines agrees.
- IsSpace (Strings) and ParseInt (JoinLobby): whitespace is the ASCII and Latin-1 set and digits are ASCII; str.strip() and int() also accept the other Unicode whitespace and decimal digits.
- FindChildrenWithTag (CoreActor.World): the search stops at its depth bound and returns what it found instead of raising RecursionError; FindsAllTaggedDescendants shows nothing is lost below a bound deeper than the hierarchy.
- Assets.AssetManager.SliceSheet requires a tile size plus spacing above zero: with a zero step the Python loop never ends.
- Assets.AssetManager.SliceSpritesheet: a tile of negative width or height counts as outside the image, with the same ValueError; what pygame does with such a rectangle is not modelled beyond that. It also requires a step (tile size plus spacing) above zero, as SliceSheet does, since with a zero step the Python loop never ends.
- Values: VInt(1) and VFloat(1.0) are distinct values, whereas Python compares 1 == 1.0 as equal; the model's comparisons of received values distinguish them.
- Values: a dict entry holding None and a missing key are told apart only where the source calls .get with a default; payload fields the source reads with .get(key) treat both alike, as the model does.
- TilemapComponents.FromDict reads a missing tile_type as EMPTY (0), as data.get('tile_type', 0) does (game/components/tilemap_component.py:49); an explicit None, which TileType(None) refuses with ValueError, is not a value of the tile dict.
- Placeholder (EditorProjects): the dirty flag is stored as the truthiness of the saved is_dirty (editor/editor_project.py:168), which is what every later `if scene.is_dirty` test reads; the original non-bool value itself is not kept.
- AddScene (Games.Game and GameStrict.Game): the back reference scene.game = self (engine/__init__.py:137, engine/game/game.py:100) is not modelled, since the model's Scene has no game field.

## Findings

| source | as written | input that shows it | evidently intended | confidence | as-written member | corrected member |
|---|---|---|---|---|---|---|
| engine/rendering/enhanced_animation.py:520-531 | a looping property animation that completes is rebuilt with a new start time and then searched for with list.index under that new value | one looping property animation whose duration has elapsed | the completed animation is replaced by its restarted copy | not executed | Animations.LoopingAnimationRaises | Animations.Tick |
| engine/rendering/enhanced_animation.py:661-672 | at the end of a looping ping-pong sequence the index moves to frame count minus 2 | a looping ping-pong sequence of one frame goes to index -1 | the bounce stays on an existing frame | not executed | Animations.SingleFrameBounceLeavesFrames | Animations.PingPong |
| engine/builtin/components/clickable_component.py:154-196 | the drag test is the truthiness of the recorded press position | a press at (0, 0) records Vector2(0, 0), which is false, so the press never arms a drag (a click still fires on release) | the test asks whether a press position was recorded | not executed | Clickable.PressAtOriginNeverArms | Clickable.ArmedExactlyAfterPress, Clickable.PressMoveReleaseDrags |
| engine/networking/network_components.py:373-380 | a received component update is decoded with the list codec, while the owner encoded it with the `__type__`-tagged codec of engine/core/actor.py | a component whose attribute is Vector2(1, 2) | the replica reads back the owner's value | not executed | NetComponents.TaggedVectorArrivesAsDict | NetComponents.ApplyDataReplicates |
| engine/networking.py:379-420 | a connect request renames the connection's client_id, but the clients dict keeps the key the connection was accepted under, and a disconnect deletes by the new id | a client accepted as "k1" that announces "c1" and then disconnects stays in the clients dict | a disconnected client's slot is freed | not executed | Networking.RenamedClientIsNeverDropped | Networking.DropConnection |
| engine/components/sprite_component.py:38-54 | set_color stores the new colour but keeps the surface already filled with the old one | a white 32x32 procedural sprite set to red | the procedural surface is refilled with the new colour | not executed | Sprite.ColourChangeNotShown | Sprite.CreateShowsColour |
| engine/ui/builtin/textInput.py:59-61 | insertion keeps text[:remaining] even when remaining is negative | a text "abcdef" set by set_text with max_length 3: inserting "wxyz" still inserts "w" | nothing is inserted once the text is at or over the limit | not executed | TextInputs.OverlongTextStillGrows | TextInputs.ClippedKeepsLimit |
| game/components/tilemap.py:9-36 | map_data starts as an empty list and nothing fills it | any in-bounds get_tile or set_tile raises IndexError | one empty cell per position is created | not executed | SimpleTilemaps.EmptyMapAlwaysFails | SimpleTilemaps.StoreThenLookup |
| engine/component/builtin/transformComponent.py:103-113 | set_world_position subtracts the parent's world position without undoing the parent's rotation | a parent at the origin turned 180 degrees and a child asked to go to (1, 0) ends at (-1, 0) | reading the world position back gives the requested one | not executed | TransformComponent.SetWorldIgnoresParentRotation | TransformComponent.SetThenGetWorld |
| engine/core/world/actor.py:29-36 | Transform.deserialize passes keyword arguments that Transform.__init__ does not accept | any saved transform raises TypeError | the saved position, rotation and scale are restored | not executed | WorldActor.TransformFromAsWritten | WorldActor.TransformRoundTrip |
| engine/core/world/actor.py:210-219 | Actor.deserialize calls Component.deserialize on the class without an instance | any saved actor with at least one component fails to load | each saved component is recreated | not executed | WorldActor.ComponentsNeverLoad | WorldActor.SerializeThenLoad |
| editor/editor.py:249-264 | _deserializeUIElement instantiates Widget, whose render is abstract, and the TypeError is caught | every saved UI element, including one the editor saved itself, is dropped on load | the element is rebuilt with its saved name, rect and flags | not executed | Editor.AsWrittenLosesSavedElement | Editor.UIRoundTrip |
| editor/editor.py:1194-1197 | the drop guard rejects only targets below the dragged actor, not the dragged actor itself, although its comment says "self or descendants" | dropping an actor on its own row makes it its own parent | neither the actor nor one of its descendants becomes its parent | not executed | Editor.SelfDropAsWritten | Editor.SelfDropRefused |
| editor/editor_scene.py:261-271 | children are attached with actor.addChild, which the engine Actor of engine/actor/actor.py does not have, so the AttributeError makes the whole actor load as None | an actor record with one plain child | the parent is loaded with its children | not executed | EditorScenes.AnyChildDropsParent | EditorScenes.ActorRoundTrip |
| editor/editor_scene.py:60-94 | _serialize_actor reads actor.children, which the engine Actor does not have, so serialize raises | any scene with at least one actor | the scene is saved with its actors | not executed | EditorScenes.SerializeRaisesWithAnyActor | EditorScenes.SceneRoundTrip |
| engine/builtin/components/input_component.py:108-112 | _get_input_manager reads game.inputManager, while Game names the attribute input_manager | any update of an InputComponent | update reads the game's input manager and mirrors its held keys and buttons | not executed | InputComponents.UpdateRaisesAsWritten | InputComponents.InputComponent.Update |
| engine/component/builtin/colliderComponent.py:270-290 | serialize and deserialize call super().serialize() and super().deserialize(data), which the base Component of engine/component/component.py does not define | any collider saved or loaded | the collider type is saved as its value and read back | not executed | Colliders.SaveAndLoadRaiseAsWritten | Colliders.TypeRoundTrip |
| editor/editor.py:217-233 | deserialize clears the scene and then calls Actor.createFromSerializedData and Actor.establishRelationshipsFromSerialization, which the Actor imported at line 48 does not define | any saved scene: the first actor entry, or with none the relationship call, raises AttributeError | the saved actors, elements and flags are restored | not executed | Editor.EditorScene.DeserializeAsWritten | Editor.EditorScene.Deserialize |
