# Docker-to-Caddy route synchroniser — a Dafny model of its desired-state logic

The program watches Docker containers that carry the label `org.01-edu.https`
(a comma-separated list of `domain:port` entries) and keeps Caddy's
configuration in step with them. It holds one global map `proxies` from domain
to `container:port`. A listed or started container adds its routes; a
container that dies or is OOM-killed removes them. After every change the
whole map, sorted by domain, is handed to a configuration template and loaded
into Caddy. On the first change that leaves a route in the map, the program
decides once whether it runs in development or production. It decides by
resolving the domains until one resolves to a loopback address.

This project models that logic in Dafny:

- `go_strings.dfy` (`GoStrings`): `strings.Split` with a one-character
  separator, with `strings.Join` as its inverse.
- `order.dfy` (`Order`): Go's string order and `sort.Strings`, written as an
  insertion sort on values.
- `labels.dfy` (`Labels`): the value-level meaning of `parseEntries`
  (`ParseEntry`, `ApplyEntries`) and the lemmas about it.
- `snapshot.dfy` (`Snapshot`): the sorted `data` handed to the template, and
  the proof that it is unique for a given map.
- `sync.dfy` (`Sync`): the class `Synchroniser` with the fields `proxies`,
  `initialized`, `development` and `tmpl`. Its methods are `ParseEntries`,
  `SetCaddyProxies`, the seed loop and the event loop of `main`. DNS lookup,
  template parsing and loading into Caddy are oracles of a `Host` value.
- `wrappers.dfy` (`Wrappers`): `Option`.

Three points of `main.go`'s behaviour shape the model:

- The environment is decided once, by the first call of `setCaddyProxies`
  that finds a non-empty map. That call resolves the map's domains in map
  order and stops at the first one whose first address is loopback; a lookup
  error before such a hit ends the program. The `-dev` flag can also force
  development.
- Every configuration step renders the whole sorted map with one template
  and POSTs the result to `/load`.
- Once initialized, the map is rendered and loaded even when it has become
  empty again.

## Model

| member | source | states |
|---|---|---|
| `GoStrings.Split` | main.go:40-42 | there is one more piece than the separators in the string, and no piece contains the separator, so an empty string is one empty piece |
| `GoStrings.JoinSplit` | main.go:40-42 | joining the pieces with the separator gives back the original string |
| `GoStrings.SplitJoin` | main.go:40-42 | splitting the join of a non-empty list of separator-free pieces gives back exactly those pieces |
| `Labels.ParseEntry` | main.go:42-47 | an entry is valid iff it holds exactly one `:`; then it is `domain + ":" + port`, and neither part contains `:` |
| `Labels.Upstream` | main.go:49 | the upstream of a routed domain is the container name, a colon and the port |
| `Labels.ParseFormatEntry` | main.go:42-47 | `domain:port` written from a colon-free domain and port parses back to that domain and port |
| `Labels.ParseFormatLabel` | main.go:40-47 | a label written from well-formed entries splits into exactly those entries, each of them valid |
| `Labels.Entries` | main.go:40 | the entries of a label are `Split` of it on `,`: its comma-free pieces, one more than its commas (see `GoStrings.Split` and `GoStrings.JoinSplit`) |
| `Labels.Step` | main.go:42-52 | one entry: an entry without exactly one `:` changes nothing; a valid one routes its domain to `container:port` when up and deletes it when down |
| `Labels.StepEffect` | main.go:42-52 | one entry changes at most its own domain: present afterwards iff up, routed to `container:port` when up, every other domain keeps its route |
| `Labels.ApplyEntries` | main.go:40-53 | the map after the entries in order, each applied to the result of the earlier ones |
| `Labels.InDomains` | main.go:41-47 | a domain is named by the label iff some entry of it is valid and carries that domain |
| `Labels.ApplyFrame` | main.go:41-53 | a domain that no valid entry names keeps its previous route, or stays absent, whether the container is up or down |
| `Labels.ApplyUpKeys` | main.go:48-49 | up: the keys afterwards are the old keys plus the domains of the valid entries |
| `Labels.ApplyUpLastWins` | main.go:41-49 | up: a valid entry with no later valid entry for its domain leaves the domain routed to `container:port`, so the later entry wins |
| `Labels.ApplyDown` | main.go:50-52 | down: the result is exactly the old map minus the label's domains, whatever container they pointed to; deleting an absent domain does nothing |
| `Labels.UpThenDown` | main.go:48-52 | parsing a label up and then down, under any container names, gives the old map minus the label's domains, so none of them is routed |
| `Labels.EmptyLabel` | main.go:40-46 | an empty label is one invalid entry and changes nothing |
| `Order.Less` | main.go:104 | Go's `<` on strings: lexicographic, character by character, a proper prefix before its extensions |
| `Order.LessIrreflexive` | main.go:104 | no string sorts before itself |
| `Order.LessTransitive` | main.go:104 | the string order is transitive |
| `Order.LessTotal` | main.go:104 | any two strings are equal or ordered one way or the other |
| `Order.Insert` | main.go:104 | inserting adds exactly the one element to the multiset of elements |
| `Order.SortStrings` | main.go:104 | sorting is a permutation: same multiset of elements |
| `Order.InsertSorted` | main.go:104 | inserting into a sorted sequence keeps it sorted |
| `Order.SortStringsSorted` | main.go:104 | the sorted slice is in ascending order |
| `Order.SortedDistinctStrict` | main.go:104 | a sorted sequence without repetitions is strictly ascending |
| `Order.AscendingUnique` | main.go:104-108 | two strictly ascending sequences with the same elements are equal |
| `Snapshot.PermutationDistinct` | main.go:100-104 | a rearrangement of a sequence without repetitions has no repetitions |
| `Snapshot.CollectDomains` | main.go:100-103 | the collected domains are exactly the map's keys, each once, in any order |
| `Snapshot.SortDistinct` | main.go:104 | sorting the distinct keys gives a strictly ascending sequence of the same keys |
| `Snapshot.PairedIsSnapshot` | main.go:105-108 | pairing the sorted keys with their routes gives a snapshot of the map |
| `Snapshot.BuildSnapshot` | main.go:100-108 | the data is strictly ascending by domain, so it has no duplicates; it holds exactly the map's keys, each with its route, has one record per key, and equals `SnapshotOf` of the map |
| `Snapshot.Pair` | main.go:105-108 | each domain paired with its route, in the same order and with one record per domain |
| `Snapshot.SnapshotOf` | main.go:100-108 | the snapshot of a map: its keys, each once, sorted, each paired with its route |
| `Snapshot.SnapshotOfIsSnapshot` | main.go:100-108 | `SnapshotOf` of a map is a snapshot of it, so by `SnapshotUnique` it is the only one |
| `Snapshot.SnapshotUnique` | main.go:100-108 | a map has only one snapshot, so equal maps render identical data |
| `Sync.ScanForLoopback` | main.go:72-79 | a loopback hit is a domain of the map whose first address is loopback; a lookup error names a domain whose lookup failed; no hit means every domain resolved to a non-loopback address |
| `Sync.TemplateFor` | main.go:81-85 | `development.tmpl` in development, `production.tmpl` otherwise |
| `Sync.Attr` | main.go:158 | Go's index on a string map: the value of a present key, `""` for a missing one |
| `Sync.ContainerName` | main.go:157 | the name exists iff the container has a non-empty first name, and it is that name without its first character |
| `Sync.EventUp` | main.go:172 | an event brings routes up iff its status is exactly `start` |
| `Sync.EventRoutes` | main.go:170-173 | the map after one event: the entries of the event's label applied to the map under the actor's `name` attribute, brought up iff the status is `start` |
| `Sync.EventStatuses` | main.go:172 | `start` brings routes up; `die` and `oom` take them down |
| `Sync.StartThenStop` | main.go:169-174 | a `start` event and then a `die` or `oom` event with the same label leave the map as it was minus the label's domains |
| `Sync.Replay` | main.go:165-175 | the map after a sequence of events: each event's label applied, in delivery order, to the map the earlier ones left |
| `Sync.ReplayNext` | main.go:169-174 | replaying one more event applies that event to the replay of the events before it |
| `Sync.SeedRoutes` | main.go:156-161 | the map after the listed containers are parsed up, in order, each under its first name without the leading `/` |
| `Sync.SeedOneContainer` | main.go:156-161 | seeding with one container `/name` labelled `domain:port` gives exactly the route `domain` to `name:port` |
| `Sync.GateStep` | main.go:67-71 | a step is skipped, and changes nothing, exactly when uninitialized with an empty map; it initializes otherwise; once initialized, the environment and template stay and the outcome is a load or a rejected load; a step never fails for a missing name |
| `Sync.DetectStep` | main.go:71-86 | a lookup failure names a domain of the map whose lookup failed, during detection only; a lookup error with no loopback hit is fatal; without a lookup failure, development is the old flag or some domain resolves to loopback; an unreadable template is the chosen one and does not parse; a step that reaches loading after detection has a template that parses |
| `Sync.LoadStep` | main.go:99-123 | a load or a rejected load uses the template chosen by `development` on `SnapshotOf` the map, and is accepted or rejected by the host accordingly |
| `Sync.ConfigStep` | main.go:64-124 | one configuration step: `GateStep`, `DetectStep` and `LoadStep` together |
| `Sync.IsTrace` | main.go:164-176 | one pass per event, each a configuration step on the map after the events up to its own, the first starting in the given one-shot state and each later one where the previous ended, no pass but the last fatal |
| `Sync.TraceExtend` | main.go:169-174 | a trace whose last pass was not fatal, extended by a configuration step on the map after the next event that starts where the trace ended, is a trace of one more event |
| `Sync.TraceAt` | main.go:164-176 | pass `i` of a trace is a configuration step on the map after events `0..i`, starts where pass `i - 1` ended, and follows a non-fatal pass |
| `Sync.TraceLoaded` | main.go:99-123 | a loaded pass `i` of a trace applied the template chosen by `development` to the unique snapshot of the map after events `0..i`, and the host accepted it |
| `Sync.Synchroniser.constructor` | main.go:36-61 | the process starts with an empty map, not initialized, no template, and `development` set from the `-dev` flag |
| `Sync.Synchroniser.ParseEntries` | main.go:39-54 | the new map is the old map after every valid entry of the label, in order (see the `Labels` lemmas); the other fields are untouched |
| `Sync.Synchroniser.Initialize` | main.go:71-87 | marks the state initialized; a lookup error with no loopback hit is fatal and names a domain whose lookup failed; without a lookup failure, development is the old flag or some domain resolves to loopback; an unreadable template is fatal; otherwise the chosen template parses and is kept |
| `Sync.Synchroniser.SetCaddyProxies` | main.go:64-124 | the step satisfies `GateStep`, `DetectStep` and `LoadStep` on the one-shot state before and after it, the map and the outcome; the map is not changed; the state is valid afterwards unless detection or template parsing failed |
| `Sync.Synchroniser.HandleEvent` | main.go:169-174 | the map after an event is the old map after its label, parsed up iff the status is `start`, under the actor's `name`; then one configuration step, which satisfies `ConfigStep`: so it is never skipped once initialized or with routes in the map, a lookup error without a loopback hit is fatal, and it is never the missing-name failure |
| `Sync.Synchroniser.ParseListed` | main.go:156-161 | every listed container is parsed up, in order, under its first name without the leading `/`; it fails iff some container has no non-empty first name |
| `Sync.Synchroniser.Seed` | main.go:156-162 | the seed loop, then one configuration step; a container without a name is fatal and is the only way to get that failure; otherwise the map is the seeded map and the step satisfies `ConfigStep` |
| `Sync.Synchroniser.Run` | main.go:164-176 | events are handled one at a time in delivery order; the map is the replay of the handled events; `passes` is a trace of them (`IsTrace`) that ends in the current one-shot state; no pass before the last is fatal, the last outcome is the last pass's, and processing stops early only after a fatal outcome |

## Left out

- The Docker client: creating it, subscribing to events, listing containers and the error channel (main.go:129-130, 137-155, 166-168). `Seed` takes the listed containers as a sequence, and `Run` takes the events delivered so far as a sequence.
- Starting the `caddy run` subprocess and the one-second sleep (main.go:131-135). This is process supervision.
- The HTTP request to `localhost:2019/load`, its timeout, reading the response body and the status check (main.go:113-123). Together with executing the template (main.go:111-112), they are one oracle, `Host.load`, which accepts or rejects the data. A rejection is fatal.
- `net.LookupIP` and `IsLoopback` (main.go:73-75) are the oracle `Host.lookup`. `template.ParseFiles` (main.go:81-86) is the oracle `Host.parses`. The template files are not part of this model.
- Logging and timing output (main.go:44, 87, 90-97).
- Go map iteration order (main.go:72, 101) is unspecified. The model picks an arbitrary remaining key at each step.
- `expect` and panics (main.go:24-28) become `Fatal` outcomes. `Run` handles no event after a fatal outcome, because the process ends there.
- `Sync.Synchroniser.Run`: the loop in `main` never ends; the model handles a finite sequence of delivered events.
- `Order.SortStrings`: `sort.Strings` sorts the slice in place. The model sorts a sequence value, which gives the same result.
- `Order.Less`: Go compares strings by UTF-8 bytes. The model compares by Unicode code points, which is the same order for well-formed text.
- `Sync.ContainerName`: `Names[0][1:]` drops the first byte of the name; the model drops the first character. The two agree on every name Docker produces, since those start with `/`.
- `GoStrings.Split`: `strings.Split` splits bytes; the model splits characters. The two agree for the ASCII separators `,` and `:` on well-formed UTF-8 text.
