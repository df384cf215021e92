# acp-cpp: verified models of the codecs and of the two-peer exchange

acp-cpp describes the Agent Client Protocol as a closed algebra of C++ types:
records of `required` / `optional` / `defaulted` / `meta` fields, tagged sums,
enums, lists, and seven types whose codec is written by hand. Two peers, a client
and an agent, exchange those values as JSON-RPC requests, replies and
notifications over two ordered wires. This project models both halves in Dafny
and proves what they keep.

**Codecs.** `Universe.dfy` embeds the algebra: a `Schema` is a C++ type, a `Val`
one of its values, `Enc` is `to_json` and `Dec` is `from_json`. `Norm` says what a
round trip leaves of a value, and `Canonical` which values say nothing that their
encoding cannot carry. `RoundTrip`, `Members`, `Theorems` and `Reencoding` prove the
theory once, by induction over schemas. `Reading` and `Writing` are references that say
which JSON stands for which value and mention no codec; every decoder and encoder is
proved to do exactly what they say. `ReadingLaws`, `Defaults` and `Sums` state what no
round trip shows: nulls, absent members, flags of other kinds, which record a tag
names and which words an enum has. `Content`, `Tools`, `SessionTypes`, `Caps`, `Updates`,
`Methods` and `Protocol` write down the concrete types, one module a header, and
show that every one is well formed. `UpdateStream` and `Exactness` state what
follows for the types users see, `Shapes` which members each of them must have and which
it may have; `CapsOrder` treats the capabilities as an order.
`HandWritten` holds the codecs the source writes step by step in that form, each
proved equal to the function the theorems speak about.

**Exchange.** `Engine` is the JSON-RPC engine by its contract; `Peers` is a peer with an
arbitrary router and what delivery does to it, for an arbitrary engine step; `Links` is
the invariant of one direction of a connection, `LinkSteps`, `Exchange` and `Runs` its
preservation by every step of every run, and `Guarantees` what hosts may conclude.
`Promises` ties every answer to the request it answers, and `Traffic` says what holds
even against a peer that sends anything. `Nodes` has the delivery loop as a loop over a
wire that is updated in place, and `DeliveryLaws` what one delivery does to each part of
a peer. `Progress` shows that requests are served. `Loopback`, `Answers` and `PromptTurn`
are the client and agent of the loopback test with all their payloads left open,
`WireAnswers` their handlers as JSON in and JSON out; `Handshake` is the `initialize`
exchange.

Run `dafny verify dfyconfig.toml` to check everything.

## Modelling assumptions

The combinators come from jsonrpc-cpp, whose sources are not part of this model.
They are taken to mean what the repository's tests and headers show:

- a record decoder takes objects only and ignores unknown members; a missing
  required member fails (tests/schema_conformance.cpp:56-62);
- `optional` writes nothing for Nothing and reads both an absent member and null as
  Nothing (tests/kernel_smoke.cpp:93-127, include/acp/tools.hpp:143-144);
- `meta` omits an empty value (tests/spec_round_trip.cpp:245-251);
- Unit writes `{}` and reads any JSON (tests/spec_round_trip.cpp:253-260);
- `sum_tagged` merges the tag into the arm's object (tests/kernel_smoke.cpp:130-145).

Where these show nothing, the following is assumed:

- `meta` reads anything but an object as the empty object;
- `defaulted` always writes its member and supplies the default only for an absent
  one; null is then read by the member's own codec;
- `sum_tagged` reads the tag before the arm;
- integers are unbounded and read from integral JSON numbers only; reals read both
  kinds of number;
- every exception of a decoder, `CodecError` or the JSON library's, is one failure `Err`;
- newtypes (ids) are their strings.

`_meta` members and raw payloads are arbitrary JSON in C++, and the theorems take them
so. Two conditions name the values whose raw payloads come back: a value is `Plain` if
every `_meta` in it is an object and no optional raw payload is a present null, which
holds of whatever a decoder produces (`Theorems.Decodes`); it is `Tidy` if that holds of
what it writes, an empty `_meta` counting as an object.

The engine is taken by its contract: fresh ids, a pending set, and a reply that
completes the pending request of its id (section 5 of the JSON-RPC 2.0
Specification). Frames are values, not text. A handler's answer has its method's
result type, which C++ enforces. The router, also jsonrpc-cpp's, is assumed to hand a
deferred call to the host, to refuse unregistered methods with -32601 and then
parameters that do not decode with -32602, and to drop a notification that does not
decode.

In a run, requests, notifications and late replies go on the wire when they are made. The
replies that delivery returns in `back` go on the wire when the host sends them, in the
order they were made and possibly after other moves.

## Where code and documentation differ

- README.md:49-50 calls serialisation a fold, "never bespoke code", and README.md:29 says
  there is no hand-written `to_json`. Seven types have one, and three of them are
  not injective: see `Exactness.SomeValuesAreLost`.
- README.md:177 and README.md:214 count 11 update variants; the code and this model have 14
  (include/acp/updates.hpp:219-237).
- include/acp/session_types.hpp:6-7 lists three kinds of MCP servers and says that an absent
  `type` means stdio. The decoder reads every other string as stdio too:
  `Exactness.StrangersAreStdio` is such a server, and `Exactness.ReadAsStdio` says exactly
  which objects are read so (include/acp/session_types.hpp:110-116).

## Model

| member | source | states |
|---|---|---|
| RoundTrip.RoundTrips | include/acp/updates.hpp:219-237 | for every well-formed type and every value of it, decoding the encoding succeeds and gives the value's normal form; mutual induction over records, lists, sums and the hand-written codecs |
| RoundTrip.DecoderFrame | include/acp/updates.hpp:23-26 | a record decoder gives one result on any two objects that agree on its declared members |
| RoundTrip.ForeignMember | include/acp/updates.hpp:23-26 | adding or changing a member outside the declared ones does not change what is read |
| Members.WritesExactly | include/acp/tools.hpp:156-170 | an encoded record holds under each key exactly what that field writes, and nothing under any other key |
| Members.RequiredIsEnforced | tests/schema_conformance.cpp:56-62 | no record is read without its required members |
| Reading.Reads | include/acp/updates.hpp:219-237 | for every well-formed type, decoding JSON gives a value if and only if that JSON stands for that value under a reference that says so member by member and names no decoder; so it fails on all other JSON |
| Writing.EncodesExactly | include/acp/updates.hpp:219-237 | for every value of every well-formed type, the encoding is the one JSON a reference, which names no encoder, says the value looks like |
| ReadingLaws.NullIsAbsent | include/acp/tools.hpp:143-144 | for an optional member of any type, whatever else the object holds, null and absence read alike |
| ReadingLaws.AbsentIsNothing | tests/kernel_smoke.cpp:93-127 | and both read as Nothing |
| ReadingLaws.ConfigDefaultsToSelect | include/acp/session_types.hpp:260 | a config option without a `type` reads as if its type were "select", whatever its other members |
| ReadingLaws.AuthDefaultsToAgent | include/acp/caps.hpp:281 | an authentication method without a `type` reads as one of type "agent" |
| ReadingLaws.InputDefaultsToUnstructured | include/acp/session_types.hpp:307-313 | a command input without a `type` reads as one of type "unstructured" |
| ReadingLaws.OverlayFlags | include/acp/caps.hpp:146-154 | terminal logins are offered iff `auth` is an object whose `terminal` is true itself, an elicitation mode iff it is an object under `elicitation` |
| ReadingLaws.SessionFlags | include/acp/caps.hpp:103-110 | each session feature is on iff its member is there and is an object, the boolean one iff `configOptions.boolean` is |
| Defaults.AbsentIsDefault | include/acp/tools.hpp:156-170 | in any record an absent defaulted member reads as if its default were written, whatever else the object holds |
| Defaults.ToolCallDefaults | include/acp/tools.hpp:156-170 | a tool call without kind is "other", without status "pending", and lacks content and locations |
| Defaults.PlanAndPermissionDefaults | include/acp/tools.hpp:233-275 | plan entries are "medium" and "pending", permission options "allow_once", where they do not say |
| Defaults.FlagDefaults | include/acp/caps.hpp:72-190 | what a peer does not say it can do, it cannot do |
| Defaults.ClientDefaults | include/acp/caps.hpp:123-130 | a client that says nothing of files, terminals or sessions offers none of them |
| Defaults.AgentDefaults | include/acp/caps.hpp:233-243 | the same for every member of the agent capabilities |
| Defaults.InitializeDefaults | include/acp/methods.hpp:101-133 | without a version a peer speaks version 1, without capabilities it offers none, without authentication methods it has none |
| Defaults.ListDefaults | include/acp/session_types.hpp:65-91 | absent arguments, environments, headers, servers and sessions are empty lists |
| Sums.TaggedRead | tests/kernel_smoke.cpp:130-145 | an object is read as the alternative its tag names, from all its members; no tag, one that is no string, one that names nothing and what is no object are refused |
| Sums.ContentByTag | include/acp/content.hpp:205-214 | which content record each `type` names |
| Sums.ToolContentByTag | include/acp/tools.hpp:108-115 | which tool call content each `type` names, and which outcome each `outcome` |
| Sums.MessagesByTag | include/acp/updates.hpp:219-237 | which record the message, plan, tool call and command tags of `sessionUpdate` name |
| Sums.StatesByTag | include/acp/updates.hpp:219-237 | which record its other seven tags name |
| Sums.EnumByWord | include/acp/content.hpp:26-34 | each enumerator is written as its word and read from it, and nothing else is read |
| Sums.EnumWords | include/acp/tools.hpp:38-72 | the words of the seven enums, in the order of their enumerators |
| Shapes.WhatIsDeclared | tests/schema_conformance.cpp:56-62 | a record with these required and these other members refuses an object without one of the former, looks at no further member, and accepts every accepted object cut down to the required ones |
| Shapes.ContentMembers | include/acp/content.hpp:44-134 | the required and the other members of annotations and resources |
| Shapes.BlockMembers | include/acp/content.hpp:156-203 | of the five content records |
| Shapes.ToolMembers | include/acp/tools.hpp:156-202 | of a tool call and of its delta, where only the id is required |
| Shapes.SessionMembers | include/acp/session_types.hpp:34-196 | of servers, modes and select options |
| Shapes.UpdateMembers | include/acp/updates.hpp:106-215 | of the session updates |
| Shapes.CapabilityMembers | include/acp/caps.hpp:72-306 | of the capabilities, none of which is required |
| Shapes.CallsOnTheAgent | include/acp/protocol.hpp:34-50 | of the parameters of every method of the agent |
| Shapes.CallsOnTheClient | include/acp/protocol.hpp:53-76 | of the parameters of every method of the client |
| Shapes.Notifications | include/acp/protocol.hpp:49-68 | of the three notifications |
| Shapes.AgentResults | include/acp/protocol.hpp:34-50 | of what every method of the agent returns |
| Shapes.ClientResults | include/acp/protocol.hpp:53-76 | of what every method of the client returns |
| RoundTrip.EmbeddedRoundTrips | include/acp/content.hpp:136-154 | untagged resources return to the alternative they came from, whatever else they hold |
| RoundTrip.McpServerRoundTrips | include/acp/session_types.hpp:93-118 | all three server kinds return in normal form under their own alternative |
| RoundTrip.SelectRoundTrips | include/acp/session_types.hpp:198-215 | option and group lists of any length return to their own alternative, except that an empty group list returns as an empty option list |
| RoundTrip.ConfigRoundTrips | include/acp/session_types.hpp:232-273 | what comes back of a config option of any type, with any options |
| RoundTrip.OverlayIsForeign | include/acp/caps.hpp:123-157 | the `auth` and `elicitation` overlay never touches what the base record reads |
| RoundTrip.OverlayReadsBack | include/acp/caps.hpp:146-156 | the three overlay flags are read back from the overlaid object |
| RoundTrip.CapsRoundTrip | include/acp/caps.hpp:123-157 | base decode and overlay decode together recover every member of the client capabilities |
| AuthMethods.AuthRoundTrip | include/acp/caps.hpp:259-289 | a round trip clears `args` and `env` of a method that is not a terminal one, and nothing else but a `_meta` that is no object |
| AuthMethods.AuthSurvives | include/acp/caps.hpp:259-289 | an authentication method comes back unchanged if and only if it is a terminal one or has neither `args` nor `env` (and its `_meta` is an object) |
| AuthMethods.AuthKernel | include/acp/caps.hpp:262-273 | for any `_meta`, the encoder tells two methods apart exactly where they show different things; a non-terminal method and its cleared form never |
| ClientSessions.SessionRoundTrip | include/acp/caps.hpp:89-112 | every session flag and the `_meta` come back |
| Theorems.SurvivesIffCanonical | tests/spec_round_trip.cpp:11-21 | a value of any type comes back unchanged if and only if it is canonical |
| Theorems.SecondTripIsIdentity | tests/spec_round_trip.cpp:11-21 | a second round trip changes nothing |
| Reencoding.ReencodingIsStable | tests/spec_round_trip.cpp:11-21 | for every JSON a decoder accepts, re-encoding gives JSON that is accepted and that another decode and encode leave as it is |
| Reencoding.ReencodesAlike | tests/spec_round_trip.cpp:11-21 | the property the test helper asserts of samples, exactly: a decoded encoding encodes to the same JSON iff what the value writes has no `_meta` but objects and empty ones and no present null |
| Reencoding.EncodingKernel | include/acp/session_types.hpp:198-273 | values with one encoding have one normal form, and tidy values with one normal form have one encoding |
| Theorems.Decodes | include/acp/content.hpp:205-214 | whatever a decoder accepts is a value of its type, with object `_meta` and no present null |
| Theorems.NeverNull | include/acp/tools.hpp:188-202 | only raw JSON null encodes to null |
| Theorems.RigidKeepsPlain | README.md:49-50 | where no hand-written lossy codec occurs inside a type, its plain values are canonical |
| Content.ContentBlockOk | include/acp/content.hpp:205-214 | the five-arm content sum, with embedded resources inside, is well formed: distinct keys and tags, no arm uses the tag key |
| Tools.ToolCallContentOk | include/acp/tools.hpp:108-115 | so is the tool call content sum over content blocks |
| Tools.ToolCallsOk | include/acp/tools.hpp:156-202 | both tool call records are well formed and have no member called `sessionUpdate` |
| Tools.OutcomeOk | include/acp/tools.hpp:282-303 | so is the permission outcome, whose cancelled arm is a Unit |
| SessionTypes.McpServerOk | include/acp/session_types.hpp:65-118 | no server record has a member called `type` |
| SessionTypes.ConfigOptionOk | include/acp/session_types.hpp:168-273 | groups always carry `group`, options never do, so the first element decides |
| Updates.SessionUpdateOk | include/acp/updates.hpp:219-237 | the 14 tags are distinct and no arm, the two flattened ones included, has a member called `sessionUpdate` |
| Protocol.ParamsOk | include/acp/protocol.hpp:34-76 | the parameters of every method are well formed |
| Protocol.ReturnsOk | include/acp/protocol.hpp:34-76 | the results of every method are well formed |
| Protocol.NoteParamsOk | include/acp/protocol.hpp:49-68 | the parameters of every notification are well formed |
| Protocol.EveryPayloadRoundTrips | include/acp/protocol.hpp:34-76 | every payload of the method table reaches the other side as its normal form |
| Protocol.EveryPayloadSettles | tests/spec_round_trip.cpp:11-21 | whatever JSON is accepted as any payload of the method table, re-encoding it gives JSON that is accepted and stays as it is |
| UpdateStream.SelectOptionsSurvive | include/acp/session_types.hpp:198-215 | a list of select options or of groups comes back as it was iff its `_meta` members are objects and it is not the empty list of groups, which comes back ungrouped |
| UpdateStream.SelectOptionsKernel | include/acp/session_types.hpp:198-215 | the two empty lists are the only distinct values with object `_meta` members that share an encoding, and the only ones of different kinds at all |
| UpdateStream.ConfigOptionSurvives | include/acp/session_types.hpp:217-273 | exact loss: an option survives iff its `_meta` members are objects and, boolean, it has no string value and default options, or else is not toggled and its options are not an empty group list; of one with object `_meta` that settled form comes back |
| UpdateStream.MessageSurvives | include/acp/methods.hpp:375-388 | every session/update message of all 14 kinds with object `_meta` and no present null comes back with nothing rewritten but its config options; any message comes back unchanged iff it is of that kind and each config option in it is settled |
| Exactness.OnlyJsonEncodesToNull | include/acp/tools.hpp:176-202 | raw JSON is the only type with a value that encodes to null |
| Exactness.OptionalSurvives | include/acp/tools.hpp:188-202 | a `Maybe` member survives iff what is in it survives and is not JSON null |
| Exactness.OptionalIsFaithfulUnlessNull | include/acp/caps.hpp:200-223 | a `Maybe` member returns every canonical value iff no value of its type encodes to null, so presence flags are faithful |
| Exactness.PatchFields | include/acp/tools.hpp:172-202 | in a delta an empty list stays distinct from an absent one, while a present null becomes absent |
| Exactness.ArmsAreNeverConfused | include/acp/content.hpp:136-154 | different alternatives of an untagged sum never share an encoding, and each decodes to its own |
| Exactness.ResourcesAreNeverConfused | include/acp/content.hpp:136-154 | text and blob resources never share an encoding and are read back as what they were, whatever their fields and `_meta` hold |
| Exactness.ServersAreNeverConfused | include/acp/session_types.hpp:93-118 | the same for stdio, http and sse servers |
| Exactness.ServerIsTagged | include/acp/session_types.hpp:96-109 | an http or sse server has its kind under `type` on the wire, a stdio server no `type` at all |
| Exactness.ReadAsStdio | include/acp/session_types.hpp:110-116 | JSON is read as a stdio server iff it is an object whose `type` is absent or a string other than http and sse and whose members decode as one |
| Exactness.StrangersAreStdio | include/acp/session_types.hpp:110-116 | a server of an unknown type is read as a stdio server |
| Exactness.FlatteningIsSafe | include/acp/updates.hpp:135-149 | a flattened tool call neither writes the tag member nor reads differently for it |
| Exactness.OffersSurvive | include/acp/caps.hpp:123-243 | client and agent capabilities come back unchanged iff their `_meta` members are objects |
| Exactness.SomeValuesAreLost | include/acp/session_types.hpp:235-250 | concrete values that do not come back: a boolean option's string, an empty group list, a non-terminal method's arguments, a `_meta` that is no object |
| CapsOrder.EncodingEmbeds | include/acp/caps.hpp:5-11 | "presence means supported" as an order: one offer is below another iff its encoding is, for every type built of flags and presence and for any `_meta` |
| CapsOrder.DecodingIsMonotone | include/acp/caps.hpp:89-112 | JSON that says more decodes to no fewer capabilities, on every pair of inputs the decoder accepts |
| CapsOrder.CapabilityOrder | include/acp/caps.hpp:123-243 | both statements for the client and agent capabilities |
| CapsOrder.OfferIsBelowItself | include/acp/caps.hpp:5-8 | the order on offers is reflexive |
| CapsOrder.OffersCompose | include/acp/caps.hpp:5-8 | it is transitive |
| CapsOrder.OffersCoincide | include/acp/caps.hpp:5-8 | offers below each other encode alike, and are equal if their `_meta` members are objects |
| CapsOrder.SessionEmbeds | include/acp/caps.hpp:89-112 | the hand-written session capabilities embed in the same order |
| CapsOrder.OffersGrow | include/acp/caps.hpp:5-11 | offering nothing is below every offer, and turning on an overlay flag that was off gives a strictly greater one |
| Caps.NegotiatesGreatest | include/acp/caps.hpp:56-63 | negotiation succeeds iff the peers share a version and then picks the greatest shared one |
| Caps.NegotiationIsMeet | include/acp/caps.hpp:56-63 | it is a partial meet: commutative, associative, idempotent on valid versions, failure absorbing |
| Handshake.AgentEchoesVersion | tests/protocol_loopback.cpp:28-32 | the loopback agent answers every client with the client's own version, and the client reads it |
| Handshake.BothAgree | README.md:117-121 | through two codecs and one negotiation, both peers end with the greatest shared version, and the handshake fails exactly when there is none |
| Handshake.OffersCross | include/acp/methods.hpp:101-133 | each peer reads exactly the capabilities the other offered, iff their `_meta` members are objects |
| HandWritten.EncodeConfigOption | include/acp/session_types.hpp:235-250 | the field-by-field encoder computes the encoding the theorems are about |
| HandWritten.DecodeConfigOption | include/acp/session_types.hpp:251-271 | the field-by-field decoder computes the same result, failures included |
| HandWritten.EncodeMcpServer | include/acp/session_types.hpp:96-109 | the object built has `type` exactly for http and sse servers, and is read back as the server it was built from |
| HandWritten.EncodeAuthMethod | include/acp/caps.hpp:262-273 | the step-by-step encoder computes the encoding AuthRoundTrip and AuthSurvives are about |
| HandWritten.DecodeAuthMethod | include/acp/caps.hpp:274-287 | the step-by-step decoder computes the same result, failures included: `args` and `env` are read whatever the type is |
| HandWritten.EncodeClientSession | include/acp/caps.hpp:95-102 | present flags become empty objects, absent ones nothing: the encoding SessionRoundTrip is about |
| HandWritten.DecodeClientSession | include/acp/caps.hpp:103-110 | every flag is read by presence, and no input is refused |
| HandWritten.EncodeClientCapabilities | include/acp/caps.hpp:131-141 | the overlay written in place over the base record is the encoding the theorems are about |
| HandWritten.DecodeClientCapabilities | include/acp/caps.hpp:142-155 | base decode followed by the overlay's conditional reads is the decoder the theorems are about, failures included |
| Peers.DeliveryComposes | tests/protocol_loopback.cpp:64-77 | for any engine step and any router, delivering two batches is delivering their concatenation: same peer, same frames back, same effects |
| DeliveryLaws.OneDelivery | tests/protocol_loopback.cpp:68-75 | one frame, for any engine step: calls first, in order, each deferred one held and each other replied to once under its id; then the notifications that decode, in order; replies go back before what the engine sends; completions are logged last, in order |
| DeliveryLaws.EffectsAddUp | tests/protocol_loopback.cpp:74 | delivering one frame more appends its sends, calls, notifications and completions to those of the batch |
| DeliveryLaws.CompletionsInOrder | tests/protocol_loopback.cpp:74-76 | what a batch completed is what its host finds, appended to what it had, in order |
| DeliveryLaws.TwoRepliesInOrder | tests/protocol_loopback.cpp:96-98 | the replies to two pending requests complete them in the order they came in, with what they carry |
| DeliveryLaws.BadCallsAreRefused | tests/protocol_loopback.cpp:70-71 | a call of an unregistered method is refused with -32601, one whose parameters do not decode with -32602, and neither touches the host |
| Nodes.Wire.Send | tests/protocol_loopback.cpp:85-87 | appends frames in order |
| Nodes.Node.Deliver | tests/protocol_loopback.cpp:64-77 | for any engine step and any router, the loop empties the wire, `back` grows per frame, in turn, by the replies to its calls and then what the engine sends, effects add up, the completions are logged in order, and the peer is the fold of the frames |
| Nodes.Node.Take | tests/protocol_loopback.cpp:68-74 | one pass of the loop is one step of the fold, whatever calls, notifications and sends the step brings |
| Nodes.Node.HandleCall | tests/protocol_loopback.cpp:70-71 | a deferred call is held and nothing goes back; any other is decoded, answered or refused, at once |
| Nodes.Node.HandleNotification | tests/protocol_loopback.cpp:72 | a notification that decodes reaches its handler |
| Nodes.Node.Request | tests/protocol_loopback.cpp:92 | asks under the next fresh id |
| Nodes.Node.Notify | tests/protocol_loopback.cpp:131 | sends the encoded notification |
| Nodes.Node.Reply | tests/protocol_loopback.cpp:151 | builds the reply for any id; a call that was held is then held no longer |
| Nodes.Node.SendBack | tests/protocol_loopback.cpp:85-95 | `back` goes on the wire whole and in order, and is then empty |
| LinkSteps.AskKeeps | include/acp/protocol.hpp:95 | a new request keeps the link invariant |
| LinkSteps.CompletionKeeps | tests/protocol_loopback.cpp:96-102 | a reply at the head of the wire belongs to a pending request, and completing it keeps the invariant |
| LinkSteps.ArrivingCall | tests/protocol_loopback.cpp:70-71 | a handler is called with the normal form of what was asked |
| LinkSteps.ArrivingNotice | tests/protocol_loopback.cpp:72 | the next notification heard is the next one sent, in normal form |
| LinkSteps.NoticeKeeps | tests/protocol_loopback.cpp:56-58 | hearing a notification keeps the invariant |
| LinkSteps.NotifyKeeps | tests/protocol_loopback.cpp:127-131 | sending one keeps it |
| LinkSteps.DeferralKeeps | tests/protocol_loopback.cpp:122-125 | taking a call off the wire, to the host or to a handler, moves its id to the peer |
| LinkSteps.LateReplyKeeps | tests/protocol_loopback.cpp:149-151 | putting the reply to such a call on the wire moves its id there, behind all notifications sent so far |
| LinkSteps.OnlyOwedRepliesConserve | tests/protocol_loopback.cpp:149-151 | putting a reply on the wire keeps every id in one place iff the peer still owes a reply to that id; answering twice, or what was not asked, does not |
| Exchange.PostingKeeps | tests/protocol_loopback.cpp:94-95 | sending a reply that delivery returned keeps both directions in order, whatever the host did since |
| Exchange.BackIsMade | tests/protocol_loopback.cpp:70-73 | the frames delivery returns are the replies to the calls it answered, in order |
| Exchange.DeliveryKeeps | tests/protocol_loopback.cpp:64-77 | delivering any frame keeps the invariant of both directions |
| Runs.RunKeeps | tests/protocol_loopback.cpp:82-159 | every run of the two peers, in any interleaving of asking, notifying, answering, delivering and sending back what was delivered, keeps both directions in order |
| Guarantees.EveryRunKeeps | tests/protocol_loopback.cpp:82-159 | in every run each pending request is in exactly one place, completes at most once under its own id with the normal form of what was answered, and notifications are heard in order, those sent before a reply ahead of its completion |
| Guarantees.PendingIsInOnePlace | tests/protocol_loopback.cpp:118-159 | a pending id is in flight, with the other peer (held, or answered and not sent), or in flight back: exactly one of these, once |
| Guarantees.RequestsCompleteOnce | tests/protocol_loopback.cpp:96-98 | where every id given out is accounted for, no request completes twice and each one asked is pending or completed |
| Traffic.NothingCompletesTwice | tests/protocol_loopback.cpp:96-98 | that holds of every peer, whatever frames it receives, repeated, forged or answering nothing, and whatever its host replies to |
| Traffic.StrangeReplyIsIgnored | include/acp/protocol.hpp:94-98 | a reply to no pending request changes nothing |
| Guarantees.RepliesArrive | include/acp/protocol.hpp:97-98 | a reply given with `reply<M>` reads under `result<M>` as the normal form of what was replied, a refusal as its code |
| Guarantees.StreamsAreHeardInOrder | tests/protocol_loopback.cpp:127-155 | what was heard is a prefix of what was sent, and at each completion exactly the notifications sent before its reply went on the wire had been heard |
| Guarantees.IdleExactlyWhenQuiet | tests/protocol_loopback.cpp:158-159 | both engines have nothing pending iff the wires carry notifications only and no host has a call to answer or a reply to send |
| Guarantees.DeliverySendsReplies | tests/protocol_loopback.cpp:64-77 | with any engine that sends replies only and stays silent on replies, delivery sends back replies only, and none where nothing but replies came in |
| Guarantees.ThreeDeliveriesSettle | tests/protocol_loopback.cpp:89-102 | from any point of any run, three deliveries, each followed by sending back what it returned, empty both wires; everything sent has been heard, and what is pending is exactly what the other host holds |
| Progress.EveryRunIsServed | tests/protocol_loopback.cpp:89-102 | after any run of any two peers, once those three deliveries are made, every request the client has made of a method the agent does not defer is completed |
| Progress.RequestsAreServed | tests/protocol_loopback.cpp:89-102 | the same from any state that keeps both directions in order |
| Progress.NewRequestIsServed | tests/protocol_loopback.cpp:105-114 | the client may make any such request at any time, and those deliveries complete it under the id it was given |
| HostInvariants.RunKeepsHosts | tests/protocol_loopback.cpp:21-60 | whatever the handlers of both hosts keep holds in every run |
| Loopback.AcpIsSound | include/acp/protocol.hpp:34-76 | the method table meets what the theorems ask of a table |
| Loopback.RoutersTyped | tests/protocol_loopback.cpp:27-59 | the client's and agent's handlers answer with values of the declared result types |
| Loopback.ClientCollects | tests/protocol_loopback.cpp:56-58 | the client's `updates` are the updates it heard, in order |
| Loopback.AgentNamesSessions | tests/protocol_loopback.cpp:33-37 | no two sessions the agent opens share an id |
| Loopback.AgentOpensNextSession | tests/protocol_loopback.cpp:33-37 | the reply to `session/new` reads as the id made of the next session number |
| Loopback.DecimalSpells | tests/protocol_loopback.cpp:35 | the digits of a session number spell that number |
| WireAnswers.ClientGrantsTheFirst | tests/protocol_loopback.cpp:50-55 | on the wire: a permission request is counted and answered with the outcome "selected" and the `optionId` of `options[0]`, and refused when there is none |
| WireAnswers.AgentEchoes | tests/protocol_loopback.cpp:28-32 | on the wire: `initialize` is answered with the `protocolVersion` sent, or 1 if none was, and the answer reads as if it had no other member |
| WireAnswers.AgentNamesTheNext | tests/protocol_loopback.cpp:33-37 | on the wire: `session/new` is answered with an object of one member, `sessionId`, an "s" and the decimal number of the session |
| Loopback.EveryRun | tests/protocol_loopback.cpp:82-159 | the guarantees, the collected updates and the session names in every run of this client and this agent |
| Promises.RunKeepsPromises | tests/protocol_loopback.cpp:27-59 | for any two routers, in every run each reply given is one its router allows for the request it answers: the handler's answer to the normal form of what was asked, or the refusal of an unknown method |
| Answers.AnswersFitRequests | tests/protocol_loopback.cpp:27-59 | in every run each completed permission request reads `selected` with the id of its own first option, or was refused with -32603 as it had none, each completed initialize its own version, any two completed session/new different sessions, and requests for methods the other peer has not registered are refused with -32601 |
| Loopback.ClientSeesTheStream | tests/protocol_loopback.cpp:127-155 | the client's `updates` are a prefix of the agent's, each as a round trip leaves it; once a request has completed they include every update sent before its reply |
| PromptTurn.Play | tests/protocol_loopback.cpp:116-159 | the scripted prompt turn for every prompt, update, permission request with an option, and result: the update is collected, the outcome `selected` carries the id of the first option, both requests complete under their own ids with what was answered, and nothing is left pending |

## Left out

- The bodies of jsonrpc-cpp: framing, deadlines, `Tick`, `Cancel`, `Closed`, batches, and the handling of malformed frames. What delivery does with an engine's calls, notifications and sends is proved for any engine; the runs use the one of `Engine`, which sends nothing on its own.
- JSON text, number formatting, UTF-8, the order of object members, and the narrowing of integers: `int` and `std::int64_t` members, and the agent's session counter, are unbounded here.
- Floating-point rounding of `Cost.amount` and `Annotations.priority`: these are reals.
- Method names and version headers: methods are constructors, so their spellings do not occur.
- Capability gating ("the agent must not send ... unless"), applying a tool call delta and compaction summaries: described in comments, performed by no code here.
- Concurrency of hosts: the library has no threads; runs interleave whole host operations and deliveries.
- Handlers that throw: a handler answers or refuses. The loopback client's `options.front()` on an empty list is undefined in C++; the model refuses such a request.
- The agent's `prompt_call` member: the calls a host still has to answer are the peer's `held` calls.
- Guarantees.EveryRunKeeps: hosts answer calls they hold, once. That each pending request is in one place holds for no others, by LinkSteps.OnlyOwedRepliesConserve; that nothing completes twice holds for all, by Traffic.NothingCompletesTwice.
- Runs.RunKeeps: hosts put frames on the wire in the order they were made, except that replies returned by delivery may wait.
- PromptTurn.Play: takes peers with nothing pending; the general statements are Guarantees.EveryRunKeeps and Answers.AnswersFitRequests.
- File-system and terminal payloads: instances of the general theorems, not treated one by one.
