# Verified models of the DNS router, the DNS client and the daemon

This project models the parts of sing-box that are hardest to get right and
proves properties of the models for all inputs, all runs and all schedules:

- the resumable walk over DNS rules outside legacy mode: `evaluate` rules that
  launch queries, rules that wait for named or anonymous responses, `race` rules
  that commit out of order, speculative exchanges, the wake channel, and the
  validation that admits a rule list in the first place;
- the DNS client: the expiring and optimistic response cache, the lock that lets
  one exchange per key ask the transport, the time to live of a response,
  round-robin rotation, and the client subnet in queries and in cache keys;
- alias chains in answers and in predefined responses;
- the daemon: service lifecycle under concurrent reload, stop and error reports,
  the connection event stream and the client that folds it, the framing of file
  transfers;
- the start order of DNS transports, the transport manager, and the binary form
  of saved resources.

Concurrent protocols are state machines whose steps interleave freely; the code
that updates fields in place is also written as classes and methods, and each
method is proved to compute the corresponding step. `RuleWalker`, `DnsClient`,
`InflightLock.Client` and `ConnectionSession` also record the run they perform, so
that the results over all runs hold of them. Results of servers, of the
wall clock, of the network environment and of rule conditions are parameters and
arbitrary.

## How the pieces fit

`RuleWalk` is the walk as a state machine; `SequentialRules` is the reference, an
interpreter that answers every `evaluate` on the spot. `WalkInvariant`,
`WalkVisit`, `WalkRace`, `WalkRuns`, `WalkLiveness`, `WalkAccounting` and
`WalkAhead` hold the invariant step by step, `WalkTheorems` the results over all
runs, `WalkPrompt` the runs whose queries are answered at once. `WalkQueries` says
of every query which options it carries, where it goes and what later rules see of
it, in terms of the rules alone, and `WalkLaunches` when a walk sends and when it
waits. `QueryOptions` has the law of the last writer for options. `RuleModes` is the
mode resolution and validation of configured rules, and `ValidatedWalk` the
results restated for every list that validation accepts. `RuleWalker` is the code
of the walk as a class.

`DnsCache` is the cache as a state machine, `CacheTheorems` its agreement with a
map from keys to the latest stored message, `CacheServing` what it holds and serves
told from the labels of a run alone, `DnsClient` the code. `InflightLock` is the
lock protocol and `InflightWaits` who goes on and who waits in it. `ClientSubnet` states the subnet rules on values and
`SubnetMessages` proves the code on shared, mutable records against them.
`LifecycleCalls` says what one call to the daemon service achieves whatever else
goes on, `LifecycleEnds` how the calls come to an end.
`LateVisits`, `LateRuns`, `LateTheorems` and `LateLiveness` look at completions
inside the visit of a rule. `ConnectionStream` is the event stream with the ledger
of what it leaves between the two sides, `ConnectionTraffic` what is sent and shown,
told from the counters that were read, `ConnectionSession` its two ends as they run.

## Where the code does less than one would expect

- A query that completes between settling and the look at the bound responses
  (dns/router.go:616 and 658-674) counts as resolved although its named response
  has not been copied, so the rule is judged without it.
  `LateTheorems.LateAnswerChangesOutcome` gives a list of two rules whose outcome
  depends on this. `LateTheorems.OutcomesAreLossy` says exactly which outcomes a
  list without race rules can have, `LateTheorems.AlwaysRefinesIff` when they all
  agree with the sequential reading, and `LateTheorems.ListAlwaysRefinesIff` when
  they do whatever the servers answer. Everywhere else a visit is one step.
- Round robin gathers addresses by record structure but removes them by the type
  in the header. `RoundRobin.LoadIsPermutationIff` says exactly which records may
  disagree without being lost or doubled, and no record of a message decoded from
  the wire disagrees. `RoundRobin.MistypedRecordIsLost` shows where that premise is
  needed; the one function that builds such a record (dns/client.go:959-983) has no
  caller.
- A client subnet given as an IPv4-mapped IPv6 address is read back as another
  prefix, so the cache key does not name the subnet that was sent
  (`ClientSubnet.MappedOverrideDiffers`, `ClientSubnet.KeyMatchesQuery`).
- The first batch of connection events reports open connections as closed when
  the manager lists them as both (`ConnectionStream.InitialMatchesIff`), and the
  client's totals are off by what a new connection's counters move between the two
  reads of its announcement (`ConnectionStream.TotalsExactIff`). The first batch
  reads what it sends first, so the client stays behind; notices and ticks read the
  snapshot first, so it stays ahead (`ConnectionStream.RisingTotalsLean`,
  `ConnectionStream.MovingCountersBreakTotals`,
  `ConnectionStream.MovingNoticesBreakTotals`).
- Removing the default DNS transport makes the next one the default only if that
  is a fakeip transport; otherwise the removed one stays the default
  (`TransportManager.Manager.Remove`). A fallback default with the tag of a
  registered transport would put the list and the table out of step
  (`TransportManager.Manager.Prepare`).
- Closing the service while an interrupted reload waits leaves the status
  STARTING behind (`Lifecycle.ClosedServiceMayHangStarting`);
  `LifecycleEnds.LeftStartingIff` says exactly when.

## Model

| member | source | states |
|---|---|---|
| WalkTheorems.ReachableInvariant | dns/router.go:604-839 | every reachable state of a walk over well-formed rules satisfies the invariant: it is on the path of the sequential reading, no wake-up is lost, queries are accounted for |
| WalkTheorems.OutcomeCharacterised | dns/router.go:604-839 | a walk that ends uncancelled ends with the effect some race rule has in the sequential reading, or, if no race rule has one, with the outcome of the list without its race rules |
| WalkTheorems.WalkRefinesInterpreter | dns/router.go:604-839 | without race rules the walk ends as the sequential interpreter, for every order of completions between steps |
| WalkPrompt.PromptWalksEndFirst | dns/router.go:617-657 | a walk whose queries are all answered before the next rule is visited ends with the effect of the first race rule that has one, or, if none has, with the outcome of the list without its race rules |
| WalkPrompt.FirstEffectIsReached | dns/router.go:604-839 | for every list some run, its context never cancelled, ends with that outcome |
| WalkPrompt.FirstEffectIsUnique | dns/router.go:617-657 | there is one such outcome |
| WalkTheorems.SpeedMattersAmongRaces | dns/router.go:617-657 | two walks with the same answers that end differently both end with the effect of a race rule |
| WalkTheorems.AgreeingRacesAreDeterministic | dns/router.go:617-657 | when all effective race rules agree, the outcome does not depend on timing |
| WalkTheorems.RunsAreShort | dns/router.go:809-839 | every run has at most 32 n + 44 steps for n rules |
| WalkTheorems.AnsweredWalkMoves | dns/router.go:522-545 | once all launched queries have announced their answers, a walk that has not ended can take a step of its own: no wake-up is lost |
| WalkTheorems.MaximalRunsEnd | dns/router.go:809-839 | a run that cannot go on has ended |
| WalkTheorems.QueriesAccounted | dns/router.go:689-765 | each rule launches at most one query, the one the sequential reading asks for with the same transport and options; at most one is terminal; each race rule is judged at most once |
| WalkTheorems.FinishedWalkCancels | dns/router.go:570-574 | a finished walk has cancelled every query; the one whose answer it returns had resolved before, and so had an exchange sent ahead of time when the walk ends with the exchange of its rule |
| WalkTheorems.JudgeHoldsBack | dns/router.go:698-796 | while a race rule is armed, a rule judged in place never ends the walk |
| WalkTheorems.ArmedRulesKeepTheirView | dns/router.go:617-657 | an armed rule keeps the options and sees the responses the sequential reading gives it |
| WalkTheorems.AsyncShortcutAgrees | dns/router.go:962-985 | where the asynchronous walk hands over the final exchange at once, the blocking walk reaches the same outcome in three steps of its own |
| WalkTheorems.NamesWrittenOnce | dns/router.go:701-711 | no step replaces an entry of the named futures |
| QueryOptions.LastWriterWins | dns/router.go:385-409 | after a list of overrides applied in order, the time to live, the timeout and the subnet or its removal are those of the last override that sets them, else the initial ones; a cache switch is on if and only if it was or some override turned it on; the strategy is untouched |
| QueryOptions.EffectiveIsUnique | dns/router.go:385-409 | the last writers determine all options |
| QueryOptions.SubnetOrRemoval | dns/router.go:402-408 | options hold a subnet together with its removal only if they came with both and no override spoke of either |
| WalkQueries.LaunchedQueriesCarryTheirOptions | dns/router.go:684-765 | every query launched in any run comes from a rule that is reached and holds, goes to that rule's server, carries what the route-options rules that hold before it and then its own overrides set, by the law of the last writer, and gets the answer to exactly that with the strategy finalised; a route query to a fakeip server is never cached and only sent where fakeip is allowed |
| WalkQueries.FinalExchangesCarryTheirOptions | dns/router.go:743-797 | so does every exchange a walk is about to end with, from a route rule, a race rule or the default transport |
| WalkQueries.OutcomesCarryTheirOptions | dns/router.go:936-960 | so does the exchange behind every outcome, and a predefined answer carries the options of the rules before it |
| WalkQueries.OptionsOnArrival | dns/router.go:685-688 | on arrival at a rule the options are the initial ones under the overrides of the route-options rules that hold before it, in order |
| WalkQueries.RouteDecidesIffUsable | dns/router.go:419-433 | a route rule that is reached and holds ends the reading if and only if its server is known and, when a fakeip one, allowed; otherwise nothing changes |
| WalkQueries.ResponsesAreLatest | dns/router.go:689-711 | the response a rule finds, anonymous or under a tag, is the answer to the query of the last evaluate rule before it that holds and gives it; there is none exactly when no such rule holds or its server is unknown |
| WalkQueries.HoldsOnWhatItBinds | dns/router.go:675-681 | a rule is judged on the messages of exactly the responses it binds; a failed or missing one is no message |
| WalkLaunches.SentExactlyWhen | dns/router.go:689-765 | in any run a visit sends a query if and only if its rule is reached, holds and has its responses, and is an evaluate rule with a known server that is speculative or meets no armed rule, or a speculative route rule that meets one for the first time and can be used |
| WalkLaunches.OnlyVisitsSend | dns/router.go:809-839 | no other step sends a query |
| WalkLaunches.WaitsExactlyWhen | dns/router.go:617-797 | in any run a visit waits for a response if and only if its rule reads one that is not there, and is held back if and only if a race rule is armed and the walk would otherwise end or send a query that is not speculative; a race rule never makes it wait |
| WalkInvariant.JudgeIsEffect | dns/router.go:841-934 | what an armed rule commits when ready is its effect in the sequential reading |
| WalkInvariant.SweepCommitsFirst | dns/router.go:841-934 | a sweep commits the first ready armed rule that takes effect, and commits nothing exactly when there is none |
| WalkInvariant.SweepKeepsUnready | dns/router.go:841-934 | when nothing commits, exactly the rules that are not ready stay armed, and every other was judged without effect |
| WalkInvariant.SweepSplits | dns/router.go:841-934 | every armed rule is afterwards either still armed or judged once, never both, and the armed ones keep their order |
| WalkInvariant.SettleKeepsResponses | dns/router.go:547-568 | settling keeps the named responses equal to the answers of the settled queries behind them |
| WalkInvariant.MatchIsHolds | dns/router.go:675-681 | with its responses settled, a rule matches in the walk exactly when it matches in the sequential reading |
| WalkRuns.StepSound | dns/router.go:604-839 | every step keeps the walk on the path of the sequential reading |
| WalkLiveness.NeverStuck | dns/router.go:809-839 | a walk that has not ended can move, has a query still running, or has a completion that has yet to offer its token |
| WalkLiveness.StepDrops | dns/router.go:809-839 | every step lowers a potential over rules left, unresolved queries and armed rules |
| WalkAccounting.StepCancels | dns/router.go:936-960 | no query is cancelled by the walk before it ends or starts its final exchange, and the query kept for that exchange is not cancelled |
| WalkAhead.StepAhead | dns/router.go:936-960 | no step prepares a second exchange for a rule that sent one ahead, and a walk that ends with the exchange of that rule ends with the query sent ahead, resolved and not cut short |
| ValidatedWalk.ValidatedWalkRefines | dns/router.go:1676-1737 | for every configured list that validation accepts, without race rules, the walk refines the interpreter |
| ValidatedWalk.ValidatedWalkEnds | dns/router.go:1676-1737 | for every accepted list the outcome is characterised and the run is short |
| LateVisits.PunctualVisit | dns/router.go:609-681 | a visit without completions in its window is the visit of the state machine |
| LateVisits.LosslessInterpret | dns/router.go:604-797 | the reading with losses is the sequential interpreter when nothing is lost |
| LateRuns.MatchIsLossy | dns/router.go:658-681 | a rule judged with late completions matches as in the sequential reading without the lost responses |
| LateRuns.FineKeeps | dns/router.go:604-839 | every step with completions at any point keeps the walk on the path with the losses recorded so far |
| LateRuns.LossesAreLosable | dns/router.go:547-568 | only the first enabled rule that binds a response can miss it |
| LateTheorems.EndsWithLosses | dns/router.go:604-839 | every run, whenever its queries complete, ends as the sequential reading with the recorded losses |
| LateTheorems.PunctualRunsRefine | dns/router.go:604-839 | a run in which nothing was missed ends as the sequential interpreter |
| LateTheorems.UntaggedListsRefine | dns/router.go:604-839 | a list whose rules bind no tags refines the interpreter at every timing |
| LateTheorems.OutcomesAreLossy | dns/router.go:604-839 | the outcomes a list can have are exactly those of the reading with admissible losses |
| LateTheorems.AlwaysRefinesIff | dns/router.go:604-839 | the walk agrees with the interpreter at every timing if and only if no admissible loss changes the outcome |
| LateTheorems.ListAlwaysRefinesIff | dns/router.go:604-839 | a list agrees with the interpreter for all answers and timings if and only if there are no answers for which an admissible loss changes the outcome |
| LateTheorems.IndifferentListsRefine | dns/router.go:604-839 | when no rule that is the first to bind a response returns it or depends on it, every run refines the interpreter |
| LateLiveness.FineRunsAreShort | dns/router.go:809-839 | with completions at any point, every run has at most 32 n + 44 steps for n rules |
| LateLiveness.FineNeverStuck | dns/router.go:809-839 | with completions at any point, a walk that has not ended can go on without its context ending: no wake-up is lost |
| LateTheorems.LateAnswerChangesOutcome | dns/router.go:615-681 | a list that ends in a rejection or at the default server, depending on when its one query completes |
| RuleWalker.ExchangeWithRules | dns/router.go:799-839 | under every schedule the code ends as characterised, with the options the rules before have set, and as the interpreter when there are no race rules |
| RuleWalker.Walker.Settle | dns/router.go:547-568 | the loop over the futures computes the settling step |
| RuleWalker.Walker.Cancel | dns/router.go:570-574 | the loop cancels every future but the one kept |
| RuleWalker.Walker.SweepArmed | dns/router.go:841-934 | the loop that removes and judges ready rules computes the sweep |
| RuleWalker.Walker.VisitRace | dns/router.go:617-657 | arming a rule, and sweeping at once when it waits for nothing, computes the race visit |
| RuleWalker.Walker.VisitEvaluate | dns/router.go:689-711 | launching a query computes the evaluate visit |
| RuleWalker.Walker.VisitRoute | dns/router.go:743-765 | routing, or launching the exchange ahead of time, computes the route visit |
| RuleWalker.Walker.VisitRespond | dns/router.go:712-742 | responding computes the respond visit |
| RuleWalker.Walker.Judge | dns/router.go:675-792 | matching and dispatching on the action computes the judgement |
| RuleWalker.Walker.Visit | dns/router.go:609-681 | one turn of the rule loop computes the visit |
| RuleWalker.Walker.SettleAndSweep | dns/router.go:809-819 | the head of the resume loop computes the sweeping step |
| RuleWalker.Walker.Check | dns/router.go:820-832 | the decision to finish, sleep or go on computes the checking step |
| RuleWalker.Walker.Begin | dns/router.go:936-942 | starting the final exchange cancels every other future |
| RuleWalker.Walker.CollectAwaited | dns/router.go:622-634 | the futures awaited are the unresolved ones the rule binds |
| RuleModes.ModeIs | dns/router.go:1581-1673 | a list runs in legacy mode if and only if every rule set it names is known, no rule in it, however deep, uses match_response, response fields, ip_version, query_type, a rule set with query types, evaluate, respond, race, speculative or disable_optimistic_cache, and some rule filters on addresses or sets a strategy; it is refused if and only if a rule set is unknown or it uses one of these and sets a strategy |
| RuleModes.FlagsAre | dns/router.go:1607-1656 | the flags of a rule tree say exactly which of these the rules in the tree have |
| RuleModes.ListFlagsAre | dns/router.go:1595-1605 | likewise for a list |
| RuleModes.NonLegacyHasNoStrategy | dns/router.go:1581-1605 | when mode resolution returns non-legacy without error, no rule anywhere sets a strategy |
| RuleModes.SkippingStrategyIsSound | dns/router.go:385-409 | outside legacy mode, applying the overrides of any rules in any order without their strategies is applying them with their strategies, and gives what the last writers set |
| RuleModes.ValidateRules | dns/router.go:1676-1737 | validation accepts a list if and only if no rule in it, however deep, filters on a response without matching one, accepts an empty one, or responds over a tagged one, every response read in a rule is asked for by an earlier evaluate rule, and no tag is given twice; otherwise it refuses at the first offending rule |
| RuleModes.TreeUseIs | dns/router.go:1760-1820 | the check of a rule tree fails if and only if a rule in it is broken, and otherwise reports exactly the responses read in it |
| RuleModes.BindingsAre | dns/router.go:1760-1820 | a compiled rule binds each tag read in its tree, once, and the anonymous response exactly when a rule in it matches on that |
| RuleModes.CompiledActionsKeepTheirOptions | dns/router.go:682-796 | a compiled action keeps its kind and everything that kind has |
| RuleModes.BoundTagsAreReferenced | dns/router.go:1760-1820 | validation sees every tag a compiled rule binds |
| RuleModes.ValidRulesAreWellFormed | dns/router.go:1676-1737 | in an accepted list every tag read by a rule is defined by exactly one evaluate rule before it, and a respond rule without a tag binds none |
| Aliases.FindCname | dns/router.go:1415-1427 | finds the first CNAME owned by the name |
| Aliases.NextIsFirst | dns/router.go:1415-1427 | the alias of a name is the target of the first CNAME record it owns |
| Aliases.FindAddress | dns/router.go:1435-1449 | finds whether the name owns an address of the type asked for |
| Aliases.FindLastTarget | dns/router.go:1411-1451 | ends; a non-empty result is the end of a duplicate-free alias chain that owns no further CNAME and no address asked for; empty exactly when there is no such end |
| Aliases.ChainsAgree | dns/router.go:1411-1451 | any two alias chains from a name agree as far as they go, so the result is unique |
| Aliases.ChainIsShort | dns/router.go:1411-1451 | an alias chain is no longer than the number of distinct targets |
| Aliases.FollowsEachNameOnce | dns/router.go:1453-1520 | following predefined aliases never visits a name twice and goes no deeper than the number of distinct targets |
| Aliases.FollowsUntilLoop | dns/router.go:1453-1520 | the names followed are the aliases one after another, and following stops only where there is no alias or it leads back to the name asked for, one followed, or one the query came with |
| CacheTheorems.ServedIsLatestStored | dns/client.go:642-683 | after any run, an answer served from the cache is the message last stored under its key up to id, times and address order; a fresh one expires no later than the stored one did; a stale one is served only within the optimistic window, with a time to live of one |
| CacheTheorems.MissesExactly | dns/client.go:365-401 | the cache is passed over exactly when the request may not use it or nothing usable is stored |
| CacheTheorems.CachedEntriesAreSound | dns/client.go:419-444 | after any run every entry has a positive or name-error response that passed its own operation's checker, a positive time to live worked out from it, and the key of its operation with an environment that was unknown before or has not changed |
| CacheTheorems.RefreshesAreUnique | dns/client.go:743-752 | at most one background refresh runs per key |
| CacheTheorems.LoadAgrees | dns/client.go:642-683 | a lookup serves exactly what a map from keys to the latest stored message holds at that time |
| CacheTheorems.RunKeeps | dns/client.go:563-683 | every run keeps the cache in step with its history |
| CacheTheorems.StampLoads | dns/client.go:67-98 | writing times and rotating addresses commute |
| CacheTheorems.RearrangedRecords | dns/client.go:67-98 | a served answer has the stored records, the non-address ones in order |
| CacheServing.TableIsLatestReplies | dns/client.go:419-683 | told from the labels of a run: the table holds under a key exactly the latest reply, of an exchange or a refresh, that was fit to be kept under it and was neither forgotten nor found over by a lookup since; as it came, with its final time to live, its rotation advanced once per lookup |
| CacheServing.ServesWhatStands | dns/client.go:386-400 | an exchange that may use the cache gets that reply, rotated once more, with the whole seconds left, or one second when stale; and nothing exactly when it is over, or stale and optimistic answers are refused |
| CacheServing.KeptRepliesAreServed | dns/client.go:563-583 | a success or name error that its checker accepts, with a positive final time and an environment that was unknown or has not changed, is served to every exchange under its key until it expires, unless another is kept or the key is forgotten |
| CacheServing.ServesNothingElse | dns/client.go:642-683 | nothing else is ever served |
| CacheServing.StaleAnswersAreRefreshed | dns/client.go:386-400 | a lookup answered with a stale reply starts a refresh of its operation if and only if none runs for the key; no other lookup starts one |
| CacheServing.FinishedAnswer | dns/client.go:419-444 | an exchange is refused if and only if it has a checker and the reply is an error or not accepted; otherwise it answers with the reply under its own id, every record but OPT with the final time |
| DnsCache.RefreshStoresLikeExchange | dns/client.go:743-785 | a background refresh stores what the exchange itself would have stored |
| DnsClient.Client.Store | dns/client.go:563-583 | storing puts the stamped message and its expiry under the key, unless the time is zero or the cache is off |
| DnsClient.Client.Load | dns/client.go:642-683 | the lookup, with its copy, rotation, rewriting of times and removal, computes the load step |
| DnsClient.Client.Begin | dns/client.go:386-400 | the cache part of beginning an exchange performs the begin step of a run; what it answers is the reply that stands under the key by the labels of that run, and nothing else |
| DnsClient.Client.Finish | dns/client.go:419-444 | finishing an exchange performs the finish step of a run and answers as it does; afterwards a reply fit to be kept is in the table under its key and every other entry is as before |
| DnsClient.Client.Refresh | dns/client.go:743-785 | the end of a background refresh performs the refresh step of a run; a reply fit to be kept is afterwards in the table, and nothing else changes |
| InflightLock.RunKeeps | dns/client.go:365-416 | every interleaving of callers, goroutines and transport callbacks keeps the lock invariant |
| InflightWaits.OwnsOrWaited | dns/client.go:365-385 | in every run a thread past the lock table, of a request that may use the cache, either holds the key its request put there when it was free, or its request found the key under a channel that is now closed; other requests hold no key |
| InflightWaits.FinderWaits | dns/client.go:369-379 | a thread that finds its key taken, other than an asynchronous caller, waits at that channel until it is closed or the thread is cancelled |
| InflightWaits.EndingsHappened | dns/client.go:446-496 | an exchange ends answered, failed or early only after the transport answered, failed, or neither was needed |
| InflightWaits.CallbacksTellWhatHappened | dns/client.go:460-496 | a callback gets the transport's answer only after the transport answered, and its error only after it failed |
| InflightWaits.RepliesAsCalled | dns/client.go:446-496 | a synchronous request is replied to by a return and an asynchronous one by a callback |
| InflightLock.KeyHasOneOwner | dns/client.go:365-385 | every key in the lock table has exactly one owning thread |
| InflightLock.ChannelsCloseOnce | dns/client.go:325-330 | a channel is closed at most once and is open exactly as long as some thread of the request that made it owes the close |
| InflightLock.RepliedOwnerHasClosed | dns/client.go:325-330 | a request that put a channel in the table has closed it once before it is replied to, on every path |
| InflightLock.WaiterIsOwed | dns/client.go:369-379 | a waiter's channel is closed or another live thread is going to close it |
| InflightLock.OwnerHoldsOpen | dns/client.go:380-385 | what a thread has still to release is in the table under its own channel, which is open |
| InflightLock.RepliesOnce | dns/client.go:460-496 | with a step of its own for each return and each call of the callback, a request has at every moment either one thread working for it and no reply, or no thread and exactly one reply |
| InflightLock.NeverStuck | dns/client.go:365-416 | unless every request has been replied to, some thread can go on without a cancellation |
| InflightLock.FinishedRunsReplied | dns/client.go:460-496 | a run that cannot go on but by new requests or cancellations has replied to every request exactly once |
| InflightLock.RunsAreShort | dns/client.go:446-496 | a run with n requests has at most 9 n steps |
| InflightLock.CanFinish | dns/client.go:446-496 | every run can be extended, without new requests or cancellations, until all its requests have been replied to |
| InflightLock.Client.Begin | dns/client.go:460-474 | a call adds a request and the thread it starts on |
| InflightLock.Client.Acquire | dns/client.go:365-385 | consulting the lock table performs the acquire step of a run: the thread owns a free key, waits at the channel of a taken one, or leaves the waiting to a goroutine; a request that may not use the cache goes on at once |
| InflightLock.Client.Send | dns/client.go:460-496 | asking the transport performs the send step: an asynchronous caller leaves its request to the callback |
| InflightLock.Client.Advance | dns/client.go:374-415 | the end of a wait, the checks and the transport's outcome perform their steps |
| InflightLock.Client.Release | dns/client.go:325-330 | releasing takes the owned key out of the table, then closes its channel, which was open |
| InflightLock.Client.Reply | dns/client.go:460-496 | returning or calling back is the first and only reply to the request |
| TimeToLive.ComputeTTL | dns/client.go:274-291 | the smaller of SOA time and minimum for a response without answers that has an SOA, else the least positive time of the records but OPT, or zero |
| TimeToLive.LowerTTL | dns/client.go:281-289 | the loop over a section keeps the least positive time of the records so far |
| TimeToLive.NegativeTTL | dns/client.go:260-272 | the negative-caching time comes from the first SOA record |
| TimeToLive.FirstSOAIsFirst | dns/client.go:260-272 | which is the one no other precedes |
| TimeToLive.LeastPositiveIsUnique | dns/client.go:274-291 | the least positive time is determined |
| TimeToLive.ClampWithinBounds | dns/client.go:156-158 | a time below the minimum becomes the minimum, one above a maximum that is set becomes the maximum, or the minimum when that is larger, and any other is kept |
| TimeToLive.ApplyResponseOptions | dns/client.go:715-741 | the final time is the rewritten or the clamped one, and is written to every record but OPT |
| TimeToLive.Response.NormalizeTTL | dns/client.go:293-303 | rewriting in place gives every record but OPT the time and changes nothing else |
| TimeToLive.StampedRecords | dns/client.go:293-303 | afterwards the least positive time of the message is the one written, and OPT is untouched |
| RoundRobin.LoadIsPermutationIff | dns/client.go:61-92 | a load hands out a permutation of the stored answer if and only if each record's type fits its kind: with one group rotating, kind and type agree about that group; with both, an AAAA record may also have type A; with none, anything goes |
| RoundRobin.WellTypedIsPermuted | dns/client.go:61-92 | where kind and type agree, as in messages from the wire, it always does |
| RoundRobin.MistypedRecordIsLost | dns/client.go:45-53 | the limit of that: an answer with a record of another kind but type A loses it |
| RoundRobin.LoadParts | dns/client.go:67-98 | the other records keep their order and each address group is rotated by its index |
| RoundRobin.RotatePositions | dns/client.go:37-43 | rotating by an index moves every record on by that many places, going round |
| RoundRobin.EachHeadsOnce | dns/client.go:37-43 | among n consecutive loads each position of a group of n > 1 heads it exactly once |
| RoundRobin.AddressesTakeTurns | dns/client.go:61-98 | in the answers handed out, the A record at each position comes first in its group exactly once among n consecutive loads, and when |
| RoundRobin.LongAddressesTakeTurns | dns/client.go:61-98 | the same for AAAA records |
| RoundRobin.ApplyRoundRobin | dns/client.go:61-92 | the loops that gather, remove and append compute the load |
| ClientSubnet.ReadAfterSet | dns/extension_edns0_subnet.go:67-106 | a subnet that was set is read back, exactly when its address is not a mapped one |
| ClientSubnet.ReadAfterRemove | dns/extension_edns0_subnet.go:39-65 | no subnet is read after removal |
| ClientSubnet.SetSays | dns/extension_edns0_subnet.go:67-106 | after setting, the first subnet option has the family of the address (1 for IPv4, 2 for IPv6), the length and the address; an option that was there keeps its scope |
| ClientSubnet.SetKeepsOthers | dns/extension_edns0_subnet.go:67-106 | setting changes neither the other options and records nor the headers of the OPT records |
| ClientSubnet.RemoveKeepsOthers | dns/extension_edns0_subnet.go:39-65 | removing takes exactly the options with the subnet code and changes nothing else |
| ClientSubnet.SubnetSent | dns/client.go:787-799 | the prepared message says no subnet when it is to be removed, else that of the query's options, else that of the client's, else what it said before |
| ClientSubnet.KeyMatchesQuery | dns/client.go:186-203 | the subnet in the key is the one read from the prepared message, if and only if the override is not a mapped address |
| ClientSubnet.KeyIsStable | dns/client.go:787-799 | the key is the same before and after preparation, and preparing twice is preparing once |
| ClientSubnet.MappedOverrideDiffers | dns/client.go:787-799 | an override for which key and query differ |
| SubnetMessages.PrepareWithKey | dns/client.go:355-367 | preparing and keying a message on shared records: key, prepared message, and the caller's message unchanged |
| SubnetMessages.SetClientSubnet | dns/extension_edns0_subnet.go:67-106 | sets the subnet in a copy; the caller's records stay as they were |
| SubnetMessages.RemoveClientSubnet | dns/extension_edns0_subnet.go:39-65 | removes every option with the subnet code in a copy, or hands back the message when there is none |
| SubnetMessages.ClientSubnetFromMessage | dns/extension_edns0_subnet.go:16-37 | reads the first subnet option |
| SubnetMessages.FindExists | dns/extension_edns0_subnet.go:72-84 | what the search leaves behind: the first subnet option with its record, else the last record when it is an OPT record |
| SubnetMessages.PrepareExchangeMessage | dns/client.go:787-799 | prepares a message without changing the caller's |
| SubnetMessages.NewCacheKeySubnet | dns/client.go:186-196 | computes the subnet of the key |
| Lifecycle.StepKeeps | daemon/started_service.go:251-352 | every section under the service mutex, and every step between sections, keeps the lifecycle invariant |
| Lifecycle.RunKeeps | daemon/started_service.go:251-352 | so does every interleaving of callers |
| LifecycleCalls.ReloadAchieves | daemon/started_service.go:251-310 | whatever happens meanwhile, a reload that got in before a close ends STARTED if and only if its instance was built, its start succeeded and no call came in while it was STARTING and published; then with its own instance, live and not cancelled; otherwise with no instance and everything closed, FATAL unless interrupted; a reload of a closed service changes nothing |
| LifecycleCalls.StopAchieves | daemon/started_service.go:323-345 | whatever happens meanwhile, a stop ends with no instance and everything closed, IDLE if it found an instance or a status STARTING or STARTED, and otherwise has changed nothing |
| LifecycleCalls.ErrorsShow | daemon/started_service.go:347-352 | an error reported from outside shows as FATAL until a call gets on with its work |
| LifecycleCalls.ClosedForGood | daemon/started_service.go:312-321 | a closed service stays closed and every reload that gets in leaves at once, changing nothing |
| Lifecycle.AtMostOneLive | daemon/started_service.go:251-345 | at most one instance is live |
| Lifecycle.StartedIsRunning | daemon/started_service.go:251-310 | STARTED implies an instance that is neither closed nor cancelled |
| Lifecycle.InterruptedStartNeverStarts | daemon/started_service.go:161-168 | an interrupted start never becomes the STARTED instance |
| Lifecycle.CancelIsForever | daemon/started_service.go:161-168 | a cancelled instance stays cancelled |
| Lifecycle.QuiescentStatus | daemon/started_service.go:251-352 | with no call in progress the status is IDLE, STARTED or FATAL, or STARTING on a closed service |
| Lifecycle.ClosedServiceMayHangStarting | daemon/started_service.go:312-321 | a run that leaves a closed service STARTING |
| LifecycleEnds.LeftStartingIff | daemon/started_service.go:161-352 | however the calls in progress end, the service is left STARTING if and only if it is closed and STARTING, no stop is in progress, and a start still running has been interrupted |
| LifecycleEnds.CallsCanFinish | daemon/started_service.go:251-352 | from every reachable state the calls in progress can all come to an end, and the state decides whether that leaves STARTING |
| LifecycleEnds.CallsNeverStuck | daemon/started_service.go:251-352 | while a call is in progress, some call can take a step |
| LifecycleEnds.CallsAreShort | daemon/started_service.go:251-352 | the calls of n callers take at most 10 n steps |
| ConnectionStream.StepAgrees | daemon/started_service.go:900-1064 | every batch keeps the client's fold and the snapshots apart by exactly what the ledger says |
| ConnectionStream.RunAgrees | daemon/started_service.go:812-892 | so does every interleaving of notices, ticks and evictions |
| ConnectionStream.OpenSetFollowsSnapshots | daemon/started_service.go:812-1064 | after any run the open connections of the client are those of the snapshots but for some ids the first batch listed as both open and closed, and all of them if and only if none is left of these |
| ConnectionStream.TickRestoresOpenSet | daemon/started_service.go:968-1064 | after a tick in any run the open connections of the client are the manager's active ones, but for ids listed as both in the first batch |
| ConnectionStream.InitialMatchesIff | daemon/started_service.go:900-926 | after the first batch the open set is that of the snapshots if and only if no id is listed as both open and closed |
| ConnectionStream.UpdatesGoToOpenConnections | daemon/started_service.go:968-1064 | in every batch of every run, an update names a connection open in the view folded up to it, if and only if it is not one the client still takes for closed since the first batch |
| ConnectionStream.TotalsExactIff | daemon/started_service.go:812-1064 | after any run the client's totals of an open connection are the snapshot's plus its drift, a function of the run, and equal if and only if the drift is zero |
| ConnectionStream.RisingTotalsExactIff | daemon/started_service.go:928-1032 | when counters never go back, they are equal if and only if the two reads of the last announcement agreed |
| ConnectionStream.SteadyRunsHaveExactTotals | daemon/started_service.go:812-1064 | when every announcement reads the same counters twice and no counter goes back, all totals are exact after every batch of the run |
| ConnectionStream.RisingTotalsLean | daemon/started_service.go:900-1032 | when counters never go back, totals of a connection last announced in the first batch are never above the snapshot's, those of one announced later never below, after every batch |
| ConnectionTraffic.TickShowsCounters | daemon/started_service.go:968-1032 | after a tick in any run the snapshot of an active connection holds the counters last read for it, and the client shows these plus the drift |
| ConnectionTraffic.SteadyTicksShowCounters | daemon/started_service.go:968-1032 | when every announcement reads the same counters twice and no counter goes back, the client's totals after a tick are the manager's counters |
| ConnectionTraffic.TickSends | daemon/started_service.go:973-1032 | in any run each reading of a tick announces an unknown connection, sends the difference if and only if the counters rose, an update of zero if and only if they did not but the last event sent about the connection said they had, and nothing otherwise |
| ConnectionTraffic.RunRemembers | daemon/started_service.go:895-1032 | the traffic flag of a snapshot is set if and only if the last event sent about its connection is an update other than zero |
| ConnectionTraffic.FoldShows | experimental/libbox/command_types.go:129-168 | the client shows a connection as the last event that carried it whole did, plus the updates since, with the traffic of the last of them, closed as it was last closed since |
| ConnectionTraffic.ClientShowsLastTraffic | experimental/libbox/command_types.go:143-166 | after every batch of every run the traffic a client shows of a connection is that of the last update sent about it, and none if the last event was not an update |
| ConnectionTraffic.TickShowsTraffic | daemon/started_service.go:968-1032 | after a tick in any run it is what the counters rose since they were last read, and none for a connection that is new, idle or whose counters went back |
| ConnectionTraffic.NoticesDecide | daemon/started_service.go:928-966 | of the notices in a batch the last about a connection decides: one that left loses its snapshot and is closed, one that opened has a snapshot and, if it had none, is shown with the counters read |
| ConnectionTraffic.ClosedConnectionsShowTheirEnd | daemon/started_service.go:943-962 | a connection that left is shown closed with its final counters and time |
| ConnectionTraffic.OpenedConnectionsShow | daemon/started_service.go:930-942 | a connection that opened is shown open with the counters read for it |
| ConnectionStream.MovingCountersBreakTotals | daemon/started_service.go:903-912 | a counter that moves from three to five between the two reads of the first batch leaves the client two bytes behind in every run of rising ticks |
| ConnectionStream.MovingNoticesBreakTotals | daemon/started_service.go:930-942 | read by the notice of a new connection, it leaves the client two bytes ahead |
| ConnectionSession.Server.BuildInitialState | daemon/started_service.go:900-926 | the two loops compute the first batch |
| ConnectionSession.Server.ApplyEvent | daemon/started_service.go:928-966 | computes the reaction to one event |
| ConnectionSession.Server.BuildTrafficUpdates | daemon/started_service.go:968-1064 | the loops over active connections and snapshots compute a tick; afterwards the snapshots are those of the active connections with the counters last read, and each other one has been closed once, with the time and state found for it |
| ConnectionSession.Server.CloseMissing | daemon/started_service.go:1034-1061 | closes exactly the snapshots that are no longer active, once each and in any order, with the time and state found |
| ConnectionSession.Client.ApplyEvents | experimental/libbox/command_types.go:129-168 | folds a batch into the view, from nothing on a reset, and then drops exactly what closed more than five minutes before |
| ConnectionSession.Client.Evict | experimental/libbox/command_types.go:181-190 | drops exactly the connections closed more than five minutes before |
| ConnectionSession.Turn | daemon/started_service.go:849-890 | one turn of the serving loop performs a batch of a run, and the client's drop when it was sent |
| ConnectionSession.Subscribe | daemon/started_service.go:812-892 | a whole subscription performs a run that answers its events and ticks one by one, and ends with the open set and the totals the ledger of that run gives; the client shows as open only what has a snapshot, and all of that but ids of the initial overlap |
| ChunkReader.Reader.Read | daemon/started_service_taildrop.go:257-284 | hands out the next bytes of the file, as many as fit; ends exactly at its end mark and fails exactly when the stream breaks first; received less acknowledged stays below one mebibyte; a report is made exactly when that would be reached, and reports strictly increase |
| ChunkReader.Reader.BeginFile | daemon/started_service_taildrop.go:252-255 | starts a file; only bytes still buffered, which a finished file never leaves, would count towards it |
| ChunkReader.Reader.FinishFile | daemon/started_service_taildrop.go:286-311 | succeeds if and only if only the end of the file is left and the declared size, when given, was delivered |
| ChunkReader.ReadFile | daemon/started_service_taildrop.go:211-229 | for every sequence of read sizes, what was read is what was delivered of the file; a file that is there is read whole when there are more reads than it has bytes |
| ChunkReader.SendFile | daemon/started_service_taildrop.go:211-238 | a file that finishes is exactly the next file of the stream, with its declared size, and leaves nothing behind; one that is there with that size and read to its end finishes |
| ChunkReader.SendFiles | daemon/started_service_taildrop.go:204-238 | a transfer that succeeds delivered the consecutive files of the stream byte for byte, with their declared sizes; it does succeed when these are there and are read to their ends; its reports strictly increase |
| ChunkReader.ChunksThenDone | daemon/started_service_taildrop.go:257-284 | the first file of a stream is the concatenation of its chunks |
| TransportStart.StartTransports | dns/transport_manager.go:90-146 | it succeeds if and only if the dependency graph is closed and acyclic and no start fails; then every transport starts once, after its dependencies; otherwise it names a failed start, a real cycle or a missing dependency |
| TransportStart.Lint | dns/transport_manager.go:127-143 | the search for the problem ends with a real one |
| TransportStart.StartPass | dns/transport_manager.go:94-117 | one pass starts transports only after their dependencies |
| TransportStart.OrderedGraphIsSound | dns/transport_manager.go:90-146 | a complete start order exists only for a closed, acyclic graph |
| TransportStart.ProblemRefutes | dns/transport_manager.go:127-143 | a reported problem refutes closedness or acyclicity |
| TransportManager.Manager.Create | dns/transport_manager.go:245-300 | list and table stay in step; the transport comes last, one with the same tag is gone, and a failed start or close changes nothing; what becomes the default and the fakeip transport, and which error is reported |
| TransportManager.Manager.Remove | dns/transport_manager.go:197-224 | list and table stay in step; exactly the transport with the tag goes; what the default is afterwards, and when an error is reported for it |
| TransportManager.OthersAre | dns/transport_manager.go:197-213 | removal leaves exactly the transports with other tags |
| TransportManager.Manager.Prepare | dns/transport_manager.go:52-74 | a configured default that is missing, or a fallback that fails, is reported; a fallback is added and made the default; list and table stay in step if and only if its tag is free, and only a fakeip transport can have taken it |
| TransportManager.Manager.Start | dns/transport_manager.go:75-77 | starting follows the start order of the list, and succeeds if and only if the dependencies are closed and acyclic and no start fails |
| SavedBinary.RoundTrip | adapter/experimental.go:76-192 | decoding an encoding gives back the resource with its time cut to seconds, whatever follows it |
| SavedBinary.DecodedReencodes | adapter/experimental.go:76-192 | whatever decodes, from any bytes of any version, has a hash of its size and lengths and a time that fit, and encoding and decoding it again gives it back |
| SavedBinary.UvarintFits | adapter/experimental.go:125-192 | every length that is read fits in 64 bits |
| SavedBinary.Layout | adapter/experimental.go:76-123 | where every field of an encoding lies and how long it is |
| SavedBinary.MostSignificantFirst | adapter/experimental.go:101-104 | times are written most significant byte first |
| SavedBinary.LeastSignificantFirst | adapter/experimental.go:86-100 | lengths are written seven bits at a time, least significant first |
| SavedBinary.OlderVersions | adapter/experimental.go:125-192 | the body of an older version decodes without reading a URL hash, which stays as it was |
| SavedBinary.StrictPrefixRefused | adapter/experimental.go:125-192 | every strict prefix of an encoding is refused |
| SavedBinary.DecodeExtends | adapter/experimental.go:125-192 | decoding does not look past what it consumes |
| SavedBinary.EncodeInjective | adapter/experimental.go:76-123 | resources that differ after cutting times have different encodings |
| SavedBinary.UvarintRoundTrip | adapter/experimental.go:76-192 | unsigned varints round-trip |
| SavedBinary.Int64RoundTrip | adapter/experimental.go:76-192 | signed 64-bit times round-trip |
| SavedBinary.Resource.MarshalBinary | adapter/experimental.go:76-123 | writing computes the encoding |
| SavedBinary.Resource.UnmarshalBinary | adapter/experimental.go:125-192 | reading computes the decoding |
| SavedBinary.Reader.NextUvarint | adapter/experimental.go:125-192 | the reading loop computes the varint |

## Left out

- WalkTheorems.OutcomeCharacterised: for lists with race rules a completion falls between steps, not inside a visit or a sweep; the finer reading in `LateVisits` covers lists without race rules. Of the effects of several race rules only the first is proved reachable (`WalkPrompt`).
- WalkTheorems.WalkRefinesInterpreter: completions fall between steps; `LateTheorems` says what happens otherwise.
- LateTheorems.ListAlwaysRefinesIff: the condition quantifies over answers and the losses a rule list admits; `IndifferentListsRefine` gives one on the rules alone, which is sufficient.
- DnsClient.Client.Finish: the OPT record of the returned response is not adjusted to the version of the request, and HTTPS address hints are not filtered (dns/client.go:437-443 and 716-731).
- CacheTheorems.ServedIsLatestStored: remaining seconds are cut exactly; the source goes through a double, which can round up in the last nanoseconds of lifetimes beyond 2^23 seconds.
- InflightLock.NeverStuck: an exchange whose transport issues the same query again is not modelled.
- InflightLock.RepliesOnce: the transport is taken to call back exactly once.
- SubnetMessages.SetClientSubnet: spare capacity behind the caller's record slice is not modelled.
- RoundRobin.EachHeadsOnce: loads of one entry are sequential; concurrent loads may skip a turn.
- Lifecycle.RunKeeps: the service is modelled on values as a state machine over its critical sections, not as a class.
- SavedBinary.RoundTrip: the hash codec is given as round-tripping; allocation of very large declared lengths and the fields left behind by a failed decode are not modelled.
- The persistent response cache and the cache of rejected responses.
- Rule conditions themselves, and switching rules on or off during a walk: conditions are arbitrary functions of the bound responses.
- Legacy rule matching and its retries, address lookups, reverse mapping.
- The warnings and the fakeip checks of rule validation.
- TransportManager.Manager.Create: a registry that cannot make the transport, and the record of dependents.
- TransportManager.Manager.Remove: the error reported after the removal because of dependents.
- TransportManager.Manager.Start: not modelled for a list in which the fallback has taken the tag of a fakeip transport (`Prepare`), nor for the later start stages.
- ConnectionSession.Subscribe: sending does not fail; the end of the subscription and the filtered lists of the client are not modelled.
- Closing the transport manager.
- Logging, metrics, and everything else the daemon serves.
