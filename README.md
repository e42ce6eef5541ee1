# Social-deduction word games: the game engine

This project models the server-side engine of a multiplayer social-deduction word-game
platform. A host opens a room, players join by name, and the host picks one of eleven game
variants and its content. The engine then deals secret roles (a spy, a culprit and an
accomplice, a saboteur or a liar) and every player gets a private note. Messages are checked
against the variant's speaking rule. The answer-filter variant lets the host answer yes/no
questions. A vote ends the round, with a tally sorted by vote count.

The model has these parts:

- `Types` (types.dfy) holds the entities: game kinds, roles, players, messages, votes,
  rooms, game content, the views sent to clients and the static game table.
- `Text` (text.dfy) holds the string primitives the engine relies on: substring search,
  lowercasing, the whitespace `trim`, the `\s+` split and the `\b…\b` number match.
- `Base` (base.dfy) is the shared game class. It shuffles the players, deals roles through
  the variant's slot function, handles messages and gives each player's and the host's
  information. It is a `class Game` whose roster, log, round and turn change in place.
- One module per variant: `Alibi`, `Perspective`, `TruthConstraint`, `Chain`, `BannedWords`,
  `AnswerFilter`, `TwoLayer`, `ConstraintSpy`, `CommonGround`, `Liar20Q` and
  `OneFalseDetail`. Each has its private notes, player information, host information and
  message check.
- `Variants` (variants.dfy) dispatches the abstract methods of the base class to the
  variant a game was built for.
- `Roles` (roles.dfy) proves how many players hold each role after a deal.
- `Factory` (factory.dfy) is `createGame`. It knows six variants and rejects the other five.
- `Voting` (voting.dfy) holds the vote map, the per-target tally loop, the stable sort by
  vote count and the live vote counts.
- `Engine` (state.dfy) is the `GameStateManager` class. It holds the room registry and the
  live games, and has every request of the manager as a method. Each request checks its
  guards in the source's order and returns the source's Vietnamese error message. Its
  invariant `Valid` keeps every room well formed, every live game tied to a registered room,
  and no game object shared by two rooms.

Players are values. A room holds `players: map<PlayerId, Player>` and `order: seq<PlayerId>`
(a JavaScript `Map` iterates in insertion order). The game keeps only the ids it was set up
with. In the source, the game's shallow copy of the room's map shares the player objects.
So every game method here takes the room's table and returns the updated table, and the
manager stores that table back into the room. That is what the shared objects do.

`Math.random` and `uuidv4` are parameters:

- shuffles and level picks read oracle functions `draw: nat -> nat`;
- a room code is computed from a uuid string given by the caller;
- a fresh player id or message id is given by the caller.

## Model

| member | source | states |
|---|---|---|
| Types.ParseKind | lib/games/types.ts:1-12 | a name reads back only as the variant with that wire name |
| Types.KindNameRoundTrip | lib/games/types.ts:1-12 | every variant's wire name reads back as that variant, so the eleven names are distinct |
| Types.Or | lib/games/alibi.ts:22 | `x \|\| fallback` on an optional string: the value when present and non-empty, the fallback otherwise |
| Types.NonHosts | lib/engine/state.ts:173 | the non-host filter keeps exactly the listed ids of players who are not the host, and never lengthens the list |
| Types.GameRoles | lib/games/types.ts:236-320 | every game lists `normal` first and once, plus at least one special role |
| Types.GameInfo | lib/games/types.ts:236-320 | every game takes 4 to 12 players and lists the roles of its table entry |
| Text.ContainsIffOccurs | lib/games/alibi.ts:115 | `includes` holds exactly when the pattern occurs at some position |
| Text.Lower | lib/games/alibi.ts:106 | lowercasing keeps the length, leaves no letter 'A'–'Z', turns each such letter into its lower-case partner and keeps every other character |
| Text.LowerIdempotent | lib/games/answer-filter.ts:99-100 | lowercasing twice is lowercasing once |
| Text.Upper | lib/engine/state.ts:25 | uppercasing keeps the length, leaves no letter 'a'–'z', turns each such letter into its upper-case partner and keeps every other character |
| Text.SkipSpace | lib/games/base.ts:44 | skips exactly the leading whitespace run: all of it is whitespace, and it stops at the end or at a non-space |
| Text.SkipSpaceBack | lib/games/base.ts:44 | skips exactly the trailing whitespace run above a bound |
| Text.Trim | lib/games/base.ts:44 | `trim` returns a slice of the input with only whitespace cut on both sides, and the result neither starts nor ends with whitespace |
| Text.TrimIdempotent | lib/games/base.ts:44 | trimming a trimmed string changes nothing |
| Text.SplitCount | lib/games/answer-filter.ts:113 | `split(/\s+/).length` is one more than the number of positions where a whitespace run starts, and at most one more than the length |
| Text.SpaceRunsBound | lib/games/answer-filter.ts:113 | a string has no more whitespace runs than characters |
| Text.NatToString | lib/games/two-layer.ts:101 | a number's decimal text is non-empty, made of digits, and has no leading zero |
| Text.NatToStringValue | lib/games/two-layer.ts:101 | the decimal text reads back as the number |
| Text.Found | lib/games/alibi.ts:114-118 | the patterns reported are exactly the listed ones the text contains, and none are reported exactly when none occurs |
| Text.FoundFolded | lib/games/banned-words.ts:94-98 | the same, with each word lowercased before the search |
| Text.FoundAppend | lib/games/alibi.ts:114-118 | searching a joined list reports the first list's finds, then the second's: the search is an order-preserving filter |
| Text.FoundSingle | lib/games/alibi.ts:114-118 | a one-word list reports that word exactly when the text contains it |
| Text.FoundFoldedAppend | lib/games/banned-words.ts:94-98 | the same order-preserving filter for the lowercased search |
| Text.Quoted | lib/games/alibi.ts:116 | one violation line per word; each starts with the prefix and contains its word |
| Variants.SpecialRole | lib/games/types.ts:236-320 | the role dealt at the first shuffled position is a role of the game's table entry other than `normal` |
| Variants.SlotAt | lib/games/base.ts:24 | `assignRoles` of every variant: nothing is dealt below the variant's minimum; each dealt role is a role of the game, the one its position calls for; the first position gets the special note, the alibi accomplice its constraint, every other position the variant's normal note |
| Variants.Constraints | lib/games/base.ts:26 | the host's constraint table has an entry for every role of the game |
| Variants.Validate | lib/games/base.ts:27 | `validateMessage` of every variant: valid exactly when there is no violation; an unknown author is refused where the variant looks the author up; three variants accept everything |
| Variants.AuthorIrrelevant | lib/games/base.ts:27 | the variants that do not look at the author give the same verdict whoever speaks |
| Base.DistinctCount | lib/games/base.ts:84-86 | a list without repeats holds each element at most once |
| Base.PermutationKeepsDistinct | lib/games/base.ts:74-81 | a reordering of a list without repeats has no repeats |
| Base.NonHostsDistinct | lib/games/base.ts:84-86 | filtering a list without repeats keeps it without repeats |
| Base.Shuffle | lib/games/base.ts:74-81 | the Fisher-Yates shuffle, in place on an array, returns a permutation of its input |
| Base.SelectRandomPlayers | lib/games/base.ts:83-88 | returns `min(count, eligible)` players drawn from the eligible ones, all of them when `count` is large enough, and never the host when the host is excluded |
| Base.WriteSlots | lib/games/alibi.ts:38-41 | writing the dealt slots back into the table changes exactly the shuffled players, each by the slot of its position |
| Base.AssignRoles | lib/games/base.ts:29-32 | the deal shuffles exactly the non-hosts of the roster and applies the variant's slot to each by position, leaving every other player alone |
| Base.Game.constructor | lib/games/base.ts:20-22 | a new game has its kind and content, no roster, an empty log, round 1 and turn 0 |
| Base.Game.Players | lib/games/base.ts:70-72 | the game's players are the roster's players, as the room's table has them |
| Base.Game.Setup | lib/games/base.ts:29-32 | setup takes the table's ids in order as the roster, deals roles as `AssignRoles` states, and leaves the log, round and turn alone |
| Base.Game.HandleMessage | lib/games/base.ts:34-55 | a message from an unknown id or the host is refused and changes nothing; otherwise the trimmed, validated message is appended to the game's log and to its author's log, and the turn advances by one |
| Base.Game.PlayerInfo | lib/games/base.ts:25 | information is given exactly to a non-host the game knows |
| Base.Game.HostInfo | lib/games/alibi.ts:78-99 | the host sees a row for exactly the non-hosts of the game, with their role and note, and a constraint for every role |
| Base.Game.AnswerQuestion | lib/games/answer-filter.ts:126-137 | found exactly when some logged message has the id; the first such message gets the answer (the automatic one when none is given), its author's copy too, and nothing else changes |
| Base.Game.UnansweredQuestions | lib/games/answer-filter.ts:140-144 | lists exactly the logged questions without an answer |
| Base.AnswerInLog | lib/games/answer-filter.ts:126-138 | every message keeps its id, author and text; the messages with the id carry the answer; every other message is untouched |
| Base.WithoutId | lib/games/answer-filter.ts:140-144 | keeps exactly the messages of another id |
| Base.AnswerLeavesUnanswered | lib/games/answer-filter.ts:126-144 | after an answer, the unanswered questions are the earlier ones minus those with the answered id, in the same order |
| Base.SetAnswer | lib/games/answer-filter.ts:126-138 | the author's record becomes the same record with the answer set in its log; every other player and the table's ids stay |
| Roles.CountRolePermutation | lib/games/base.ts:74-81 | counting a role over a reordered list gives the same count |
| Roles.CountShuffled | lib/games/base.ts:29-32 | after a deal, the count of a role over the shuffled players from a position on is the number of those positions the variant gives that role |
| Roles.PositionCounts | lib/games/types.ts:236-320 | over all positions: the special role once, the accomplice once exactly in an alibi game with four or more players, `normal` everywhere else |
| Roles.CountAfterAssignment | lib/games/base.ts:29-32 | after a deal, a role's count over the whole roster is the number of positions given that role |
| Roles.RoleCounts | lib/engine/state.ts:179-180 | a started game has exactly one special role, an accomplice only in an alibi game with four or more non-hosts, and every other non-host normal |
| Roles.NothingBelowMinimum | lib/games/alibi.ts:17 | below the variant's minimum the deal changes no player |
| Roles.HostUntouched | lib/games/base.ts:84-86 | the deal never touches the host |
| Roles.DealtNotes | lib/games/two-layer.ts:22-33 | from the minimum on, each shuffled non-host gets its position's role and that role's note (the special note, the accomplice constraint, or the normal note with its own level draw); name, host flag and messages stay |
| Roles.AlibiAsWrittenTwoCulprits | lib/games/alibi.ts:25-35 | the alibi deal as written leaves two culprits when three non-hosts play and one was the culprit of an earlier round |
| Alibi.CulpritInfo | lib/games/alibi.ts:22 | the culprit's note is the configured constraint, or the default rule |
| Alibi.AccompliceInfo | lib/games/alibi.ts:28 | the accomplice's note is the configured constraint, or the default rule |
| Alibi.SlotAsWritten | lib/games/alibi.ts:14-35 | as written: the culprit at position 0; with two or three players position 1 is left untouched |
| Alibi.SlotAt | lib/games/alibi.ts:14-35 | nothing below two players; the culprit at 0, the accomplice at 1 from four players on, otherwise a normal player with no note; it agrees with the code everywhere except position 1 of a two- or three-player deal |
| Alibi.PlayerInfo | lib/games/alibi.ts:44-76 | nobody gets a topic; everyone gets three hints; only the culprit and the accomplice get a private constraint |
| Alibi.Validate | lib/games/alibi.ts:101-135 | an unknown author is refused; a culprit gets one violation per object word contained in the lowercased text, an accomplice one per person word; valid exactly when no such word occurs; other roles are always valid |
| Perspective.SpyInfo | lib/games/perspective.ts:21 | the spy's note names the spy's keyword or its default |
| Perspective.NormalInfo | lib/games/perspective.ts:26 | a normal player's note names the group's keyword or its default |
| Perspective.PlayerInfo | lib/games/perspective.ts:35-62 | the spy is told the spy topic, everyone else the group topic; nobody gets a private constraint |
| Perspective.SpyLearnsNoGroupTopic | lib/games/perspective.ts:35-62 | nothing the spy sees depends on the group's topic or angle |
| Perspective.Validate | lib/games/perspective.ts:87-90 | every message is valid |
| TruthConstraint.SpyInfo | lib/games/truth-constraint.ts:21 | the spy's note names the topic |
| TruthConstraint.NormalInfo | lib/games/truth-constraint.ts:26 | a normal player's note names the secret fact |
| TruthConstraint.PlayerInfo | lib/games/truth-constraint.ts:35-63 | everyone is told the topic and gets four hints; only normal players get the secret fact as private constraint |
| TruthConstraint.SpyLearnsNoFact | lib/games/truth-constraint.ts:35-63 | nothing the spy sees depends on the secret fact or its explanation |
| TruthConstraint.Validate | lib/games/truth-constraint.ts:88-105 | an unknown author is refused; only the spy is checked, with one violation per forbidden word found ignoring case |
| Chain.NormalInfo | lib/games/chain.ts:26 | a normal player's note names the topic |
| Chain.PlayerInfo | lib/games/chain.ts:35-65 | the spy gets no topic and four hints; the others get the topic, with a fifth hint when key points are given |
| Chain.SpyLearnsNoTopic | lib/games/chain.ts:35-65 | nothing the spy sees depends on the topic, its description or the key points |
| Chain.Validate | lib/games/chain.ts:91-104 | valid exactly when the message has the cause-and-effect form, with at most one violation |
| BannedWords.SpyInfo | lib/games/banned-words.ts:21 | the spy's note names the spy keyword |
| BannedWords.NormalInfo | lib/games/banned-words.ts:26 | a normal player's note names the main keyword |
| BannedWords.PlayerInfo | lib/games/banned-words.ts:35-62 | the spy is told the spy keyword, the others the main keyword; the second hint lists the banned words |
| BannedWords.Validate | lib/games/banned-words.ts:88-109 | one violation per banned word found ignoring case, plus one for a missing required word; valid exactly when neither happens |
| AnswerFilter.SaboteurInfo | lib/games/answer-filter.ts:21 | the saboteur's note carries the saboteur hint or its default |
| AnswerFilter.PlayerInfo | lib/games/answer-filter.ts:35-59 | everyone is told the topic and no private constraint; the saboteur, and only the saboteur, gets four hints |
| AnswerFilter.Validate | lib/games/answer-filter.ts:84-93 | valid exactly when the message contains a question mark |
| AnswerFilter.StripPunct | lib/games/answer-filter.ts:117 | removing `?!.,` leaves none of them and never lengthens |
| AnswerFilter.LastChar | lib/games/answer-filter.ts:117 | `slice(-1)` is empty for an empty string and one character otherwise |
| AnswerFilter.Evaluate | lib/games/answer-filter.ts:96-123 | without a filter the random answer decides |
| AnswerFilter.EvaluateIgnoresCoin | lib/games/answer-filter.ts:103-119 | a recognised filter rule answers the same whatever the random draw |
| AnswerFilter.EvaluateIgnoresCase | lib/games/answer-filter.ts:100 | the automatic answer does not depend on the case of the question |
| AnswerFilter.UnansweredQuestions | lib/games/answer-filter.ts:140-144 | exactly the logged questions with no answer, never more than the log |
| AnswerFilter.UnansweredAppend | lib/games/answer-filter.ts:140-144 | the selection distributes over concatenation, so it keeps log order |
| AnswerFilter.FindMessage | lib/games/answer-filter.ts:127 | `find` gives the first position with the id, or nothing exactly when no message has it |
| TwoLayer.OrNumber | lib/games/two-layer.ts:18-19 | `x \|\| fallback` on a number: zero and absence both fall back |
| TwoLayer.AvailableLevels | lib/games/two-layer.ts:20 | the levels run from the scale's minimum to its maximum, none when the scale is empty |
| TwoLayer.PickLevel | lib/games/two-layer.ts:29 | a picked level lies on the scale; there is none exactly when the scale is empty |
| TwoLayer.EveryLevelCanBeDealt | lib/games/two-layer.ts:29 | every level on the scale is picked by some draw |
| TwoLayer.FindScaleValue | lib/games/two-layer.ts:30 | a found scale value is one of the given values, for the requested level |
| TwoLayer.SpyInfo | lib/games/two-layer.ts:25 | the spy's note shows the spy's level |
| TwoLayer.NormalInfo | lib/games/two-layer.ts:32 | a normal player's note shows the level dealt |
| TwoLayer.PlayerInfo | lib/games/two-layer.ts:41-67 | the spy gets no topic, the others the topic; each player's own note is among the hints |
| TwoLayer.MentionedLevels | lib/games/two-layer.ts:100-104 | exactly the levels of the range that occur as a stand-alone number in the text |
| TwoLayer.Validate | lib/games/two-layer.ts:93-107 | one violation per level on the scale said as a stand-alone number; valid exactly when none is said |
| ConstraintSpy.NormalInfo | lib/games/constraint-spy.ts:26 | a normal player's note names the rule or its default |
| ConstraintSpy.PlayerInfo | lib/games/constraint-spy.ts:35-64 | everyone is told the topic; only normal players get the rule as private constraint |
| ConstraintSpy.SpyLearnsNoRule | lib/games/constraint-spy.ts:35-64 | nothing the spy sees depends on the rule or its explanation |
| ConstraintSpy.Validate | lib/games/constraint-spy.ts:90-124 | the spy and unknown authors are always valid; for the others, one violation per kind the rule asks for (time, comparison, contrast) whose words are all missing; at most three |
| CommonGround.SpyInfo | lib/games/common-ground.ts:21 | the spy's note names the spy's trait or its default |
| CommonGround.NormalInfo | lib/games/common-ground.ts:27 | a normal player's note lists the common traits or the default |
| CommonGround.PlayerInfo | lib/games/common-ground.ts:36-63 | the spy gets no topic, the others the topic; four hints each, no private constraint |
| CommonGround.SpyLearnsNoTraits | lib/games/common-ground.ts:36-63 | nothing the spy sees depends on the common traits or the topic |
| CommonGround.Validate | lib/games/common-ground.ts:89-92 | every message is valid |
| Liar20Q.LiarInfo | lib/games/liar-20q.ts:21 | the liar's note names the mystery item or its default |
| Liar20Q.NormalInfo | lib/games/liar-20q.ts:26 | a normal player's note names the mystery item or its default |
| Liar20Q.PlayerInfo | lib/games/liar-20q.ts:35-62 | the liar gets no topic, the others the mystery item; four hints each |
| Liar20Q.Validate | lib/games/liar-20q.ts:88-102 | valid exactly when the message is a yes/no question, with at most one violation |
| OneFalseDetail.SpyInfo | lib/games/one-false-detail.ts:21 | the spy's note carries the true description or its default |
| OneFalseDetail.NormalInfo | lib/games/one-false-detail.ts:26 | a normal player's note carries the true description or its default |
| OneFalseDetail.PlayerInfo | lib/games/one-false-detail.ts:35-62 | the spy gets no topic and, as fourth hint, the detail categories; the others get the topic |
| OneFalseDetail.Validate | lib/games/one-false-detail.ts:88-91 | every message is valid |
| Factory.CreateGame | lib/engine/factory.ts:10-26 | a game is built exactly for the six supported variants, fresh, with that kind and content; every other variant gives the error naming it |
| Factory.UnsupportedKinds | lib/engine/factory.ts:24-25 | the five variants the factory rejects are named exactly |
| Factory.UnknownKindNamesIt | lib/engine/factory.ts:25 | the factory's error message ends with the variant's wire name, which reads back as that variant |
| Voting.VoteIndex | lib/engine/state.ts:439 | finds the voter's vote, or nothing exactly when the voter has none |
| Voting.Recast | lib/engine/state.ts:439 | `votes.set`: a new voter's vote is appended; a repeated vote replaces the earlier one in place; every other vote stays; voters stay unique |
| Voting.RecastHolds | lib/engine/state.ts:439 | after a vote, every vote is the new one or an old one |
| Voting.RecastReads | lib/engine/state.ts:439 | after a vote, the voter's vote is the new one and everyone else's is unchanged |
| Voting.VotedStep | lib/engine/state.ts:462-469 | a target has votes in a longer list exactly when it had some before or gets the last one |
| Voting.Targets | lib/engine/state.ts:462-469 | the tally's keys are distinct and are exactly the players voted for |
| Voting.NoVotersOutsideTargets | lib/engine/state.ts:462-469 | a player who is not a key has no voters |
| Voting.TargetsHaveVoters | lib/engine/state.ts:462-469 | every key has at least one voter |
| Voting.VotesForStep | lib/engine/state.ts:462-469 | one more vote adds one to the total of the targets it is for |
| Voting.VotesForAppend | lib/engine/state.ts:462-469 | adding a target to a list adds its voters to the total |
| Voting.AllVotesCounted | lib/engine/state.ts:462-469 | the counts over all keys add up to the number of votes |
| Voting.Unsorted | lib/engine/state.ts:471-480 | one result per key |
| Voting.InsertPermutation | lib/engine/state.ts:483 | inserting adds exactly the element |
| Voting.InsertSorted | lib/engine/state.ts:483 | inserting into a list sorted by decreasing count keeps it sorted |
| Voting.SortPermutation | lib/engine/state.ts:483 | the sort is a permutation |
| Voting.SortSorted | lib/engine/state.ts:483 | the sort orders by decreasing vote count |
| Voting.InsertStable | lib/engine/state.ts:483 | inserting keeps the order among entries with the same count |
| Voting.SortStable | lib/engine/state.ts:483 | the sort is stable: entries with the same count keep their order |
| Voting.CountByTarget | lib/engine/state.ts:460-469 | the tally loop: the keys are the targets in order of first vote, and each key's count and voter names are its voters |
| Voting.Tally | lib/engine/state.ts:457-485 | the results are the per-target tally sorted by decreasing count |
| Voting.TallyEntries | lib/engine/state.ts:471-480 | each result lists the target's voters, counts them (at least one) and shows the target's name |
| Voting.TallyTargets | lib/engine/state.ts:471-480 | a player appears in the results exactly when someone voted for them |
| Voting.TallyOrder | lib/engine/state.ts:483 | the results are sorted by decreasing count, and ties keep the order of first vote |
| Voting.TargetIdsAppend | lib/engine/state.ts:471-480 | targets and total count of a joined list are those of its parts |
| Voting.InsertTargets | lib/engine/state.ts:483 | inserting a result adds its target and its count |
| Voting.SortTargets | lib/engine/state.ts:483 | sorting keeps the targets, as a multiset, and the total count |
| Voting.ResultsFollowTargets | lib/engine/state.ts:471-480 | results built one per key list exactly the keys and add up to their votes |
| Voting.TallySum | lib/engine/state.ts:457-485 | the results name each target once, and their counts add up to the number of votes cast |
| Voting.CountVotes | lib/engine/state.ts:497-501 | the live counts have a key exactly for each voted-for player, and its number of voters as value |
| Engine.RoomCode | lib/engine/state.ts:25 | the room code is the first eight characters of the uuid, uppercased |
| Engine.RoomsOkStore | lib/engine/state.ts:48 | storing a well-formed room keeps the registry well formed |
| Engine.IdentitiesKeepRoom | lib/engine/state.ts:180 | changing only roles, notes and logs keeps a room well formed |
| Engine.AssignmentKeepsIdentities | lib/engine/state.ts:180 | a deal changes roles and notes only |
| Engine.AnswerKeepsRoom | lib/engine/state.ts:248-254 | recording an answer keeps the room well formed |
| Engine.AnswerKeepsRooms | lib/engine/state.ts:248-254 | recording an answer keeps the registry well formed |
| Engine.PostKeepsRoom | lib/engine/state.ts:208-214 | appending a message to its author's log keeps the room well formed |
| Engine.PostKeepsRooms | lib/engine/state.ts:208-214 | appending a message keeps the registry well formed |
| Engine.NewRoomOk | lib/engine/state.ts:28-46 | a new room is well formed and waiting, with its host as its only player and no non-host |
| Engine.CreateRoomAsWritten | lib/engine/state.ts:24-50 | as written: the new room is stored under its code whether or not the code is in use |
| Engine.CodeCollisionReplacesRoom | lib/engine/state.ts:48 | a live game whose code comes up again is wiped out, with its players and snapshot |
| Engine.FindByName | lib/engine/state.ts:80-94 | the first player in joining order whose name matches ignoring case, or none exactly when no one matches |
| Engine.Launch | lib/engine/state.ts:179-184 | the factory builds a fresh game of the room's variant and content; the game is set up on the room's table and the room stays well formed with the deal's role counts |
| Engine.ClearPlayers | lib/engine/state.ts:367-371 | the reset loop clears every player of the table and keeps its ids |
| Engine.ClearedRoomOk | lib/engine/state.ts:367-377 | a reset room is well formed, keeps its host, and every player is normal, without a note and without messages |
| Engine.ResetKeepsRooms | lib/engine/state.ts:356-381 | a reset keeps the registry well formed |
| Engine.RowsFollowOrder | lib/engine/state.ts:266-271 | the player list has one row per player, in joining order, no id twice, each saying whether that player has spoken |
| Engine.VoteCheck | lib/engine/state.ts:414-430 | a vote passes only on an open vote, from a non-host of the room, for another non-host of the room |
| Engine.RecastWellFormed | lib/engine/state.ts:432-439 | a checked vote keeps the votes well formed |
| Engine.JoinKeepsRoom | lib/engine/state.ts:108-118 | a join with a new id and an unused name keeps the room well formed |
| Engine.GameStateManager.constructor | lib/engine/state.ts:20-22 | no rooms and no games |
| Engine.GameStateManager.GetRoom | lib/engine/state.ts:511-513 | the room under the code, or nothing exactly when there is none |
| Engine.GameStateManager.CreateRoom | lib/engine/state.ts:24-50 | a code already in use is refused and nothing changes; otherwise the new waiting room with the host as its only player is registered |
| Engine.GameStateManager.JoinRoom | lib/engine/state.ts:52-121 | the guards in order: no room, room not waiting or set up; a known id reconnects; without an id, a non-host of the same name reconnects; a taken name is refused; otherwise a new non-host is added at the end of the table; the registry stays well formed |
| Engine.GameStateManager.SetGameType | lib/engine/state.ts:123-137 | only the host picks the variant, from any status, and the room is then set up |
| Engine.GameStateManager.SetAIContent | lib/engine/state.ts:139-152 | only the host sets the content, from any status |
| Engine.GameStateManager.StartGame | lib/engine/state.ts:154-187 | a failing guard, taken in the source's order, changes nothing; otherwise a fresh game is registered and the room plays with the game's snapshot, one special role, an accomplice only in an alibi game of four or more non-hosts, and normal players elsewhere |
| Engine.GameStateManager.AddMessage | lib/engine/state.ts:189-217 | no room, no game and not playing are refused in that order; an unknown id or the host cannot send; otherwise the message is appended to the game's log and its author's log, the turn advances and the snapshot is refreshed |
| Engine.GameStateManager.Post | lib/engine/state.ts:208-216 | the playing path of a message: refused, or appended with the room's table and snapshot following |
| Engine.GameStateManager.AnswerQuestion | lib/engine/state.ts:219-257 | guards in order (room, host, live game, answer-filter room, answer-filter game, message found); on success the first message with the id and its author's copy get the answer |
| Engine.GameStateManager.Answer | lib/engine/state.ts:248-256 | the answering path: without the message nothing changes; otherwise the first message with the id gets the answer, as does its author's copy, and the snapshot is refreshed |
| Engine.GameStateManager.GetVotingView | lib/engine/state.ts:488-509 | a panel exactly for a room member while a vote exists, showing whether the vote is open, the caller's own vote and the count per voted-for player |
| Engine.GameStateManager.GetPlayerView | lib/engine/state.ts:259-301 | the public player list in joining order, the caller's own role and note, game information and log only while a game is live, and the caller's voting panel |
| Engine.GameStateManager.GetHostView | lib/engine/state.ts:303-339 | only the host gets a view: every player with role and note, the content, the host's game information and log while a game is live, and the voting panel |
| Engine.GameStateManager.EndGame | lib/engine/state.ts:341-354 | only the host ends the game, from any status; the live game is dropped and the snapshot and vote stay |
| Engine.GameStateManager.ResetRoom | lib/engine/state.ts:356-381 | only the host resets; the same players, each cleared, in a waiting room with no variant, content, snapshot, vote or live game |
| Engine.GameStateManager.StartVoting | lib/engine/state.ts:384-406 | only the host opens a vote, only on a playing room; the vote starts empty and open |
| Engine.GameStateManager.CastVote | lib/engine/state.ts:408-441 | a vote that fails a guard changes nothing; a passing vote replaces the voter's earlier vote or is appended |
| Engine.GameStateManager.EndVoting | lib/engine/state.ts:443-486 | only the host closes a vote, which must exist; the status stays and the result is the sorted tally |
| Engine.GameStateManager.RemoveRoom | lib/engine/state.ts:515-518 | the room and its live game are gone |

## Left out

- Network, websocket and HTTP handling are not part of this model. Neither is content
  generation by a language model: game content is an input.
- Timestamps (`Date.now()`) are not modelled: `createdAt` and the message and vote
  `timestamp` fields are dropped.
- Randomness is an input. `Math.random` becomes an oracle function, uuids become string
  parameters, and the fresh message id of `handleMessage` is a parameter.
- `Engine.GameStateManager.JoinRoom` requires that the fresh id is not in the room already.
  This is the uuid's freshness, which the source takes for granted.
- Message ids are not proved unique. `answerQuestion` answers the first message with the id,
  and the author's copy is matched by id.
- `Text.Lower` and `Text.Upper` fold ASCII letters only. JavaScript's full Unicode case
  mapping, including Vietnamese capitals with diacritics, is not modelled.
- The game snapshot in a room (`room.gameInstance = getState()`) shares the live game's log
  array in the source. Here it is a copy taken when the request ends. The manager's `Valid`
  does not tie a snapshot to the live game, because later requests update them together.
- `voteCounts` in the voting view is a JavaScript object keyed by player id. Here it is a
  map, so prototype-key oddities are not modelled.
- `createGame` throws for a variant it does not know, and `startGame` does not catch the
  throw. Here that is the error result of `Factory.CreateGame`: `StartGame` returns that
  message and changes nothing, as a failed guard would.
- `Base.Game.AnswerQuestion` takes an optional answer, as the source's `answerQuestion` does
  when called without one. The manager always passes a given answer, as the source does.
- AnswerFilter.Evaluate: the contract states the no-filter case only. What each recognised
  rule answers is stated by its body and by `AnswerFilter.EvaluateIgnoresCoin` and
  `AnswerFilter.EvaluateIgnoresCase`.
- `getMessages` is the game's `messages` field. `console.log` calls have no effect and are
  not modelled.

## Findings

| source | as written | input that shows it | evidently intended | confidence | as-written member | corrected member |
|---|---|---|---|---|---|---|
| lib/games/alibi.ts:25-35 | with two or three players, position 1 of the shuffle is neither made accomplice nor cleared, so it keeps its role and note from an earlier game | three non-hosts where the second shuffled player was the culprit of a previous game started again without a reset: two culprits | every non-host after the culprit who is not the accomplice becomes a normal player without a note | not executed | Roles.AlibiAsWrittenTwoCulprits | Roles.RoleCounts |
| lib/engine/state.ts:25-48 | `createRoom` stores the new room under its code without checking whether the code is in use | a uuid whose first eight characters, uppercased, equal a live room's code: the live room, its players and its game snapshot are replaced | a code already in use is not reused | not executed | Engine.CodeCollisionReplacesRoom | Engine.GameStateManager.CreateRoom |
