# indihurd, modelled in Dafny

indihurd sits between INDI driver processes and many clients. This project models its hard
parts and proves what they promise:

- **The wire** (`Wire`, `Grammar`, `Parsing`, `Encoding`, `RoundTrip`, `Base64`, `BlobStream`,
  `Skipping`, `Limits`, `Writing`, `Forms`). `Grammar` is a parser on whole byte strings.
  `Parsing.Parser` is the program's: a compacting, growing buffer filled by arbitrary reads,
  proved to yield the same elements, counts and errors. `Encoding` prints the server half of
  the protocol and `Writing` the client half. `RoundTrip` proves that printing and parsing
  undo each other up to `Canon`, which says what the wire cannot carry, and `Forms` says what
  the parser makes of everything that no writer here prints.
- **The snapshot store** (`Views`, `Snapshots`). `Views.Fold` is the meaning of an element on a
  map of maps. `Snapshots.Store` is the copy-on-write store on heap objects: it refines the
  fold, and no published snapshot ever changes.
- **The late joiner** (`Mirror`, `LateJoiner`, `Drift`, `Replaying`, `Subscriptions`). A client that
  joins at any moment, reads the replay and then the live messages as bytes, and folds them,
  shows what the server's snapshots show.
- **The supervisor** (`Observing`, `Presets`, `Ticking`, `Supervising`, `Waiting`). The read
  loop of one driver child over any run of attempts. The goroutines that retry CONNECT share
  its state. `Ticking` says what any schedule of them can do to it; wherever one can run, the
  read loop calls `Yield`, which takes any number of their steps, stale ones of earlier
  attempts included.
- **The client multiplexer** (`Queue`, `Selection`). State machines whose steps are single
  atomic or locked operations; the theorems hold over every interleaving.
- **Self-contained algorithms**: natural ordering and switch ids (`NatOrder`, `Switches`), FITS
  pixels (`Fits`), session recordings (`Recording`), Ekos labels (`Ekos`), the configuration
  file (`Configuration`, `Plaintext`) and the reconciliation of what runs with it
  (`Management`).

A byte is a `char` in protocol text and a `bv8` in payloads. Numbers on the wire are opaque
tokens, as many as a float64 has bit patterns, with a format/parse pair assumed to be inverse
(`Wire.NumText.Lawful`, met by `Wire.DECIMAL`), and configuration files have a decode/encode
pair assumed the same (`Management.Codec.Lawful`, met by `Plaintext.LawfulCodec`). The file
system, clocks, child processes and the network are parameters (`Script`, `World`, `Source`).

## Main results

- *Buffer refinement.* Whatever the reads, the buffered parser is the buffer-free one
  (`Parsing.Parser.Next`).
- *Codec round trip.* Any list of server elements within the limits, printed and
  concatenated, parses to exactly their canonical forms (`RoundTrip.StreamReads`), also with a
  driver's log text in between (`RoundTrip.DiagnosticsDoNotMatter`); an attribute survives
  exactly within the token limit (`RoundTrip.AttributeSurvivesIff`), image bytes under any
  insertion of white space (`BlobStream.BlobRoundTrip`), each one to the sink or its member
  (`Forms.ImagesArrive`). What a client writes arrives
  (`Writing.NumbersArrive`, `Subscriptions.EnableArrives`).
- *Skipping.* An unknown tree is passed over, or refused, under an exact condition
  (`Skipping.UnknownElementSkipped`, `Skipping.StrayChildSkipped`).
- *What elements say.* The fold itself is described member by member, without the functions
  it is made of: definitions, updates, deletions and what is ignored (`Views.UpdateShown`,
  `Views.DefinitionShown`, `Views.DeletionShown`, `Views.IgnoredShown`).
- *Store refinement.* Every operation refines the fold, history never changes, and a
  generation identifies a snapshot (`Snapshots.Store.Apply`, `Snapshots.Store.SameGeneration`).
- *Late joiner.* Encode, parse and apply, from any moment, for one server and for several
  children at once (`LateJoiner.JoinerMirrorsServer`, `Replaying.JoinerMirrorsChildren`), with
  the exact condition on an update's type (`Mirror.CarriedIffSafe`,
  `Drift.RespelledDriftsIff`); no driver can make a
  snapshot that cannot be sent (`Limits.AnyStreamReplayable`).
- *Observer mirror and preset gating.* Over any run of attempts
  (`Supervising.Supervisor.Run`); before-connect marks are exact (`Supervising.DefConsidered`)
  and number writes complete (`Presets.NumberWriteComplete`). When a retry ticker can end
  serving, and when phase and reason agree, has exact conditions
  (`Ticking.LeavesServingIff`, `Ticking.TransitionAgreesIff`).
- *Interleavings.* Queue accounting (`Queue.EveryRun`), selection isolation
  (`Selection.SelectionIsolated`), waiters signalled once (`Waiting.Waiters.FailAll`).
- *Switch ids.* The order is strict and weak where digit runs fit (`NatOrder.StrictWeak`), ids
  never change meaning (`Switches.SwitchIds.Refresh`), and a fresh enumeration is determined
  exactly when no names tie (`Switches.EnumerationUniqueIff`).
- *Pixels, recordings, labels, configuration.* `Fits.ParseHeader`, `Fits.Transcode`, `Recording.ReadAll`,
  `Recording.InStepIff`, `Ekos.EkosRoundTrip`, `Management.Management.Save`.

Where the code does not do what its documentation suggests, the model follows the code:

- A set whose type is not its vector's is applied all the same, and then a client's copy can
  drift from the server's (`Mirror.CarriedIffSafe` gives the exact condition on types,
  `Drift.RespelledDriftsIff` the one on spelling, `Drift.LeadingZeroDrifts` a stream).
- `natLess` falls back to text order for digit runs beyond int64 and then has cycles
  (`NatOrder.CycleBeyondInt64`); properties that differ only in leading zeros tie, and the
  enumeration of a fresh process is then not determined (`Switches.EnumerationUniqueIff`,
  `Switches.PulsesTie`).
- The reason is documented as empty while serving. Phase and reason are stored one after the
  other, and a retry ticker in between can leave the supervisor acquiring without a reason
  (`Supervising.Supervisor.AcquiringUnexplained`); `Ticking.TransitionAgreesIff` says when it
  cannot.
- An after-connect preset can be written just after a connect retry has put the phase back to
  acquiring, because the sweep does not look at the phase again
  (`Supervising.Supervisor.AfterConnectAcquiring`). The retry can do that exactly if CONNECT is
  not held, a before-connect preset is outstanding and a retry is pending
  (`Ticking.LeavesServingIff`); otherwise after-connect presets go out only while serving
  (`Presets.AfterConnectServing`, `Supervising.Supervisor.EvalConnection`). For the same reason
  `PhaseStopped` need not be the last phase (`Supervising.Supervisor.Run`).
- A replayed recording queues a descriptor only when bytes after it are asked for, whereas the
  live connection queued it together with the bytes it came with (`Recording.LateDescriptor`;
  `Recording.InStepIff` says which recordings that concerns).
- After a save that could not stop a runtime, the listener keeps its old settings, and saving
  the same settings again does not bring it in line (`Management.Management.StaleListener`).
- A property whose names hold NUL bytes shares its waiter and policy key with others
  (`Waiting.KeyIdentifiesIff`).

## Model

The first 39 rows are the main results; the others are the operations they are about
and the steps that lead to them.

| member | source | states |
|---|---|---|
| Parsing.Parser.Next | internal/indiwire/parser.go:59-190 | buffer refinement: whatever the splits, the element, counts, unread rest or error are those of the buffer-free parser on the unread bytes; an error is final |
| RoundTrip.StreamReads | internal/indiwire/serve.go:29-150 | codec round trip: any list of elements within the limits, printed and concatenated, parses to exactly their canonical forms in order |
| RoundTrip.AttributeSurvivesIff | internal/indiwire/writer.go:114-142 | an attribute value survives if and only if it is no longer than the token limit; a longer one is refused |
| RoundTrip.DiagnosticsDoNotMatter | internal/indiwire/parser.go:399-420 | whatever text without tags a driver logs before, between and after its elements, a parser with a diagnostics callback reads exactly the elements |
| BlobStream.BlobRoundTrip | internal/indiwire/blob.go:9-72 | for every byte string and every insertion of white space into its encoding, the content read is exactly that string |
| Skipping.UnknownElementSkipped | internal/indiwire/parser.go:183-189 | an unknown tree at top level: the rest parses as if it were not there, one more unknown, if and only if its names and its outermost attributes are within the token limit; otherwise it is an error. Attributes further in have no limit |
| Skipping.StrayChildSkipped | internal/indiwire/parser.go:252-261 | the same, both ways, for a stray child of a vector |
| Writing.NumbersArrive | internal/indiwire/writer.go:47-61 | however the map is walked, the reader gets a new-number element for that device and property whose members are exactly the map |
| Subscriptions.EnableArrives | internal/indiserve/conn.go:125-155 | from the writer's enableBLOB through the parser to the client's policies: the mode holds for every property of the device that has none of its own |
| Forms.ImagesArrive | internal/indiwire/parser.go:293-309 | the images of an update: each reaches the sink if that wants it, under its device, property and own name, and its member otherwise; all of them byte for byte and in order |
| Views.UpdateShown | internal/snapshot/store.go:89-127 | after an update of a vector that is there: state and timestamp are its own, the message unless empty; the last of its members of each name gives value, text, switch, light, size and flag, the last with a range the range, the last with a format the format; nothing else changed |
| Snapshots.Store.Apply | internal/snapshot/store.go:45-56 | refines one step of the pure fold; true exactly if something was published; history kept |
| Snapshots.Store.SameGeneration | internal/snapshot/snapshot.go:51-53 | two published snapshots of equal generation are the same and say the same |
| Limits.AnyStreamReplayable | internal/snapshot/store.go:45-127 | whatever a driver sends, to a strict parser or to one with a diagnostics callback, the snapshot folded from it can be sent again whole |
| Mirror.CarriedIffSafe | internal/snapshot/store.go:89-127 | an update always leaves a client's copy like the server's if and only if its type is safe for the vector; the store never compares types |
| Drift.RespelledDriftsIff | internal/snapshot/store.go:89-127 | from a driver's bytes to a client's copy: a text vector updated by a number looks the same on both sides if and only if the number was spelled as the host spells it |
| LateJoiner.ReplayRebuilds | internal/indiserve/server.go:260-307 | folding the replay into an empty store rebuilds every vector, BLOB vectors included: keys, type, perm, rule, state, timestamp, labels, member order and typed values |
| LateJoiner.JoinerMirrorsServer | internal/indiserve/server.go:260-307 | a client that joins at any moment, reads the replay and then the live messages as bytes, and folds them, shows what the server shows |
| Replaying.JoinerMirrorsChildren | internal/indiserve/server.go:160-307 | the late joiner of several children shows, at every later moment, what the children show, each having folded its own elements into its own view |
| Supervising.Supervisor.Run | internal/supervisor/run.go:17-36 | observer mirror and gating over any run of attempts: the observer heard the elements of each and then one deletion for each device alive at its end, and believes in nothing afterwards; in each attempt no preset enters two writes; then stopped, unless a leftover ticker with a before-connect preset outstanding comes after that |
| Supervising.DefConsidered | internal/supervisor/preset.go:53-62 | before-connect marks stay exact: marked if and only if a wanted device defined the property |
| Presets.NumberWriteComplete | internal/supervisor/preset.go:91-130 | every number write names every member of the vector it is for, which is the definition just applied or the vector in the snapshot at that moment, and no other; each with the number of the last of the due presets for it that has one, or else with its value there |
| Ticking.LeavesServingIff | internal/supervisor/run.go:314-340 | from serving a ticker can leave serving if and only if CONNECT is not held, a before-connect preset is outstanding, and a retry is pending |
| Ticking.TransitionAgreesIff | internal/supervisor/supervisor.go:193-208 | however tickers run during and after a transition with a reason given, the reason is empty exactly while serving: this holds if and only if the transition is not to serving, or no ticker still owes a reason and none can take serving back |
| Supervising.Supervisor.AcquiringUnexplained | internal/supervisor/supervisor.go:193-208 | a run from the constructor in which it fails: a retry and its reason come between the two stores, and the phase is acquiring without a reason |
| Supervising.Supervisor.AfterConnectAcquiring | internal/supervisor/run.go:283-284 | such a run, from the constructor |
| Waiting.Waiters.FailAll | internal/supervisor/sender.go:161-170 | afterwards every channel ever handed out has had exactly one value |
| Queue.EveryRun | internal/indiserve/conn.go:69-105 | over every interleaving: the counter equals queued, being written and reserved bytes, so between calls it is the bytes in the channel; what is admitted fits 64 MiB or only one message of it has bytes; messages leave in the order they were accepted |
| Selection.SelectionIsolated | internal/indiserve/server.go:44-156 | over every interleaving a registered, open client was only ever sent messages of currently selected children |
| NatOrder.StrictWeak | internal/devtype/switchdev/device.go:123-143 | so it is irreflexive and transitive, and ties are equal keys |
| Switches.SwitchIds.Refresh | internal/devtype/switchdev/device.go:85-113 | ids keep their meaning over every refresh; new pairs in candidate order |
| Switches.EnumerationUniqueIff | internal/devtype/switchdev/device.go:85-113 | a fresh enumeration depends only on the snapshot if and only if no two contributing names tie |
| Fits.ParseHeader | internal/imagepath/header.go:28-72 | each key decides its own field, by the last card before the first END that gives it a value; a key without one leaves the default; refused exactly without SIMPLE or without END |
| Fits.Transcode | internal/imagepath/transcode.go:11-88 | every output pixel, read by its type, is the stored one of row y, or of row height-1-y for BOTTOM-UP, plus BZERO, by the header that the cards decide; refused exactly when the checks fail |
| Recording.ReadAll | internal/transport/record.go:128-161 | any sequence of sizes delivers a prefix of the trace, ending in a byte, and all of it at EOF; what is queued is the descriptors in that prefix |
| Recording.InStepIff | internal/transport/record.go:64-161 | a recording replays in step, the queue after the bytes of each read being the live one, if and only if no read in it carried both bytes and descriptors |
| Ekos.EkosRoundTrip | internal/host/webmanager_catalog.go:119-190 | a profile to labels and back against itself gives the same instances if and only if no two of its labels share one; otherwise it fails for that duplicate |
| Management.Management.Save | internal/host/management.go:299-365 | refused exactly on its stated grounds and then nothing changes; saved but unfinished exactly if something that should not run will not stop; done, what runs is what is enabled, kept entries keep their runtime object, an active profile matches the flags; the listener is in line exactly if it was or its settings changed |
| Management.Management.StaleListener | internal/host/management.go:335-353 | a run from the constructor: an obstructed save that moves the listener, saved again and done, leaves the listener where it was |
| Grammar.Next | internal/indiwire/parser.go:71-190 | the buffer-free parser that everything else is measured against: an element read leaves strictly less input |
| Parsing.Source.Read | internal/indiwire/parser.go:372-383 | a reader that splits the stream anyhow, and may report its end along with the last bytes: what it hands out plus what is left is what was left; its end is sticky |
| Parsing.Parser.Compact | internal/indiwire/parser.go:364-371 | moving unread bytes to the front changes none of them |
| Parsing.Parser.Grow | internal/indiwire/parser.go:372-377 | doubling keeps the bytes and never passes 1 MiB |
| Parsing.Parser.Fill | internal/indiwire/parser.go:364-384 | a refill loses nothing unread; it fails for size exactly when a full megabyte is unread, otherwise only with the reader |
| Parsing.Parser.Byte | internal/indiwire/parser.go:386-395 | the next unread byte, or the reader's error exactly at the end |
| Parsing.Parser.Unread | internal/indiwire/parser.go:397 | stepping back never underflows and restores the input it had |
| Parsing.Parser.Ident | internal/indiwire/parser.go:527-551 | the identifier of the grammar, across any number of refills; too long exactly from 1 MiB on |
| Parsing.Parser.Entity | internal/indiwire/parser.go:620-650 | the five predefined entities (section 4.6 of XML 1.0), others refused, as the grammar says |
| Parsing.Parser.Quoted | internal/indiwire/parser.go:553-583 | the attribute value of the grammar, entities resolved |
| Parsing.Parser.StartTag | internal/indiwire/parser.go:455-497 | name, attributes and self-closing of the grammar's start tag |
| Parsing.Parser.CloseTag | internal/indiwire/parser.go:499-514 | the grammar's close tag |
| Parsing.Parser.TextUntilClose | internal/indiwire/parser.go:586-617 | the grammar's text up to its own close tag |
| Parsing.Parser.FinishTag | internal/indiwire/parser.go:695-720 | the rest of a skipped tag, `>` and `/` inside quotes passed over |
| Parsing.Parser.SkipElement | internal/indiwire/parser.go:654-693 | skips what the grammar's depth counter skips |
| Parsing.Parser.ReadDiagnostic | internal/indiwire/parser.go:740-761 | a line of stray text is read up to its end or the next tag |
| Parsing.Parser.SkipToTop | internal/indiwire/parser.go:399-420 | blanks, and with a callback stray text, are passed over up to the next tag, as the grammar says |
| Parsing.Parser.BlobContent | internal/indiwire/blob.go:9-72 | the grammar's base64 content; what is handed on, to a sink or to the member, is every quantum before the end or the error, and on success all of the content |
| Parsing.Parser.Members | internal/indiwire/parser.go:233-309 | members, stray children and the member limit of the grammar |
| Parsing.Parser.TopStep | internal/indiwire/parser.go:74-189 | one turn: an instruction, an unknown element counted and skipped, or an element; stray text is refused, or passed over with a diagnostics callback |
| Encoding.WriteMemberValue | internal/indiwire/serve.go:122-150 | appends a member's body by type; base64 for BLOB payloads |
| Encoding.WriteMember | internal/indiwire/serve.go:82-118 | appends one member line: attributes by type and direction, body, close tag |
| Encoding.EncodeVector | internal/indiwire/serve.go:55-120 | the whole vector text |
| Encoding.EncodeElement | internal/indiwire/serve.go:12-53 | the wire text of the four server kinds, an error for the rest |
| Encoding.EncodePingReply | internal/indiwire/serve.go:21-27 | the text of an answer to a ping |
| RoundTrip.QuotedReads | internal/indiwire/parser.go:553-583 | every byte string up to the token limit survives escaping and reading as an attribute value |
| RoundTrip.TextReads | internal/indiwire/parser.go:586-617 | member text survives escaping and reading for every byte string within the limit |
| RoundTrip.StartTagReads | internal/indiwire/parser.go:455-497 | a printed start tag reads back to its name and attributes |
| RoundTrip.HeadReads | internal/indiwire/parser.go:208-231 | a vector's printed attributes set exactly the canonical head: a set loses label, group, perm and rule |
| RoundTrip.ShellReads | internal/indiwire/parser.go:266-291 | a member's printed attributes set exactly what the wire carries: number definitions gain a range, BLOB definitions lose size and format |
| RoundTrip.ValueReads | internal/indiwire/parser.go:311-322 | a member's printed value reads back, trimmed |
| RoundTrip.MembersRead | internal/indiwire/parser.go:233-309 | all members read back in order, in canonical form |
| RoundTrip.ElementReads | internal/indiwire/serve.go:29-150 | one printed element, in front of anything, reads as its canonical form and consumes up to its final `>` |
| RoundTrip.StraySkipped | internal/indiwire/parser.go:399-420 | with a diagnostics callback, text without tags is passed over whole |
| RoundTrip.StrayRefused | internal/indiwire/parser.go:399-420 | without one, the first byte of it that is not blank is the error |
| RoundTrip.PingReplyReads | internal/indiwire/parser.go:168-182 | an answer to a ping reads back with its uid byte for byte |
| Forms.PingRequestReads | internal/indiwire/parser.go:168-173 | a request for a ping reads as that request with its uid byte for byte, whatever stands after it |
| Forms.VectorForms | internal/indiwire/parser.go:74-189 | def, set and new before a type and Vector: the kind, the type and the name of the children that each of the fifteen tags stands for |
| Forms.PlainForms | internal/indiwire/parser.go:74-189 | the kind that each of the six other known tags stands for |
| Forms.UnknownIff | internal/indiwire/parser.go:74-189 | a tag is skipped as unknown if and only if it is none of those twenty-one |
| Forms.PrologPassed | internal/indiwire/parser.go:431-445 | an instruction in front of anything, closed for the first time at its end, changes nothing that is read |
| Forms.LayoutPassed | internal/indiwire/parser.go:386-453 | blanks, tabs and line ends in front of an element, a child or an attribute, or within encoded content, change nothing that is read |
| Forms.OthersRefused | internal/indiwire/parser.go:399-420 | any other character is refused in front of a child, and without a diagnostics callback in front of an element |
| Forms.NameReadIff | internal/indiwire/parser.go:527-551 | what is read as a name: exactly the nonempty runs of letters, digits, hyphens and underscores below the token limit, with something else after them |
| Forms.EntityReads | internal/indiwire/parser.go:620-650 | an entity up to its semicolon reads as the character of its name, and is refused for any other name or for more than six bytes |
| Forms.AttachedReads | internal/indiwire/parser.go:266-291 | an image member whose bytes travel as a descriptor, not in the text: it reads with its size and format, attached exactly when the flag says true, and reaches no sink |
| Writing.Writer.GetProperties | internal/indiwire/writer.go:16-24 | the text of a query is sent |
| Writing.Writer.EnableBLOB | internal/indiwire/writer.go:26-36 | the text of a subscription is sent |
| Writing.Writer.SetNumber | internal/indiwire/writer.go:47-61 | every entry of the map once, in some order, one line each |
| Writing.Writer.SetSwitch | internal/indiwire/writer.go:63-76 | the lines of the names to turn on, then of the names to turn off |
| Writing.Writer.SetText | internal/indiwire/writer.go:78-87 | every entry of the map once, in some order, one escaped line each |
| Writing.NewReads | internal/indiwire/parser.go:71-322 | new values in front of anything read back as the element that says them |
| Writing.SwitchesArrive | internal/indiwire/writer.go:63-76 | the reader gets the names to turn on, on, and the names to turn off, off, in order |
| Writing.TextsArrive | internal/indiwire/writer.go:78-87 | the reader gets every entry of the map, its text trimmed |
| Writing.EnableReads | internal/indiwire/writer.go:26-36 | a subscription reads back with its device and its mode byte for byte |
| Writing.QueryReads | internal/indiwire/writer.go:16-24 | a query reads back with the device and property it asks for |
| Wire.StateParsesBack | internal/indiwire/types.go:13-40 | every state parses back from its spelling |
| Wire.PermParsesBack | internal/indiwire/types.go:51-74 | every permission parses back from its spelling |
| Wire.RuleParsesBack | internal/indiwire/types.go:85-108 | every rule parses back from its spelling |
| Wire.StateReadIff | internal/indiwire/types.go:28-40 | each state is read from its spelling and from no other; any other text reads as Idle |
| Wire.PermReadIff | internal/indiwire/types.go:63-74 | the same for permissions, with read-only |
| Wire.RuleReadIff | internal/indiwire/types.go:97-108 | the same for rules, with one-of-many |
| Wire.DecParsesBack | internal/indiwire/serve.go:96-104 | sizes parse back from their decimal text over the whole int64 range |
| Wire.Int64Reads | internal/indiwire/parser.go:266-291 | a size with or without a sign reads as itself, or as the nearest end of the int64 range |
| Wire.OtherReadsZero | internal/indiwire/parser.go:266-291 | text that is not digits with at most one sign before them reads as zero |
| Wire.DecimalLawful | internal/indiwire/parser.go:326-360 | what is assumed of number text can be had: decimal text of the tokens satisfies it |
| Wire.TrimSpaceIdempotent | internal/indiwire/parser.go:311-322 | trimming reaches a fixed point at once, Unicode white space included |
| Wire.TrimSpaceTakes | internal/indiwire/parser.go:311-322 | trimming takes white space from both ends and nothing else, until neither end has any |
| Wire.BlankBytes | internal/indiwire/parser.go:311-322 | of single bytes exactly the six ASCII spaces are trimmed |
| Base64.QuadDecodes | internal/indiwire/blob.go:75-100 | the bit-level inverse: the quantum of one, two or three bytes decodes to exactly them (section 4 of RFC 4648) |
| Base64.QuadAccepted | internal/indiwire/blob.go:74-100 | a quantum is accepted if and only if it is two, three or four letters of the alphabet and padding at its end, which says how many bytes it holds |
| BlobStream.QuantaDecode | internal/indiwire/blob.go:75-100 | the encoding of every byte string decodes to it |
| BlobStream.StreamDecodes | internal/indiwire/blob.go:9-72 | the byte-by-byte loop equals stripping white space and decoding quanta |
| BlobStream.PartialQuantumRejected | internal/indiwire/blob.go:44-53 | a non-space length not divisible by four is rejected |
| Skipping.AllSkipped | internal/indiwire/parser.go:654-720 | a forest of unknown elements, with any blanks in its tags, is skipped with the depth unchanged if and only if every name in it is within the token limit; otherwise it is an error |
| Limits.NextParsed | internal/indiwire/parser.go:71-322 | every element read from any bytes is within the token and member limits, with unused fields blank |
| Views.FoldKeepsOk | internal/snapshot/store.go:45-147 | every element keeps: names under their keys, index at a member of that name, at most 4096 properties a device, no image data |
| Views.DefinitionShown | internal/snapshot/store.go:58-87 | after a definition within the limit: the vector has its attributes, exactly its members in order without images, all at that time; no other vector changed |
| Views.DeletionShown | internal/snapshot/store.go:129-147 | a deletion takes the property, or with no name the whole device, and nothing else; a deletion or update of what is not there, and every other kind, changes nothing |
| Views.IgnoredShown | internal/snapshot/store.go:45-147 | what is counted as ignored: a definition past the limit, a deletion or update of what is not there, and of an update its members of no known name |
| Snapshots.Vector.Member | internal/snapshot/snapshot.go:35-41 | the member of that name, none exactly if there is none |
| Snapshots.Snapshot.Devices | internal/snapshot/snapshot.go:65-71 | each device once |
| Snapshots.Store.Publish | internal/snapshot/store.go:149-153 | a publication leaves every earlier snapshot saying what it said, with a larger generation |
| Snapshots.Store.Cow | internal/snapshot/store.go:157-168 | a copy of the outer map and of one device's map; nothing else is copied, nothing shared is written |
| Snapshots.Store.ApplyDef | internal/snapshot/store.go:58-87 | refines the definition of the map of maps, the property limit included |
| Snapshots.Store.ApplySet | internal/snapshot/store.go:89-127 | refines the update: named members only, into fresh storage; strangers counted |
| Snapshots.Store.ApplyDel | internal/snapshot/store.go:129-147 | refines the deletion of a property or a device |
| Snapshots.Store.Invalidate | internal/snapshot/store.go:32-35 | an empty invalid snapshot; history kept |
| Snapshots.Store.Reset | internal/snapshot/store.go:38-41 | an empty valid snapshot; history kept |
| Snapshots.ViewKept | internal/snapshot/snapshot.go:17-33 | a snapshot says the same as long as none of its objects is written |
| Drift.DriverReads | internal/indiwire/parser.go:233-322 | a driver's text definition and number update read as that definition and an update whose text is the spelling and whose value is its reading |
| Drift.LeadingZeroDrifts | internal/snapshot/store.go:89-127 | with decimal numbers, a driver that writes 01 leaves the host showing 01 and the client 1 |
| Mirror.StepMirrored | internal/snapshot/store.go:45-147 | one element, applied here and through the wire there, keeps two stores showing the same: everything but arrival times and payloads, or for a client without BLOB updates everything but the state and stamp of BLOB vectors too |
| Mirror.UnseenBlobUpdate | internal/indiserve/conn.go:157-168 | a BLOB update a client did not subscribe to changes nothing it can know |
| LateJoiner.FoldReplayable | internal/snapshot/store.go:58-127 | a snapshot of replayable vectors stays one |
| LateJoiner.RoomLeft | internal/snapshot/store.go:58-66 | the property limit never bites during a replay |
| LateJoiner.LiveUpdatesMirrored | internal/indiserve/server.go:160-203 | from then on every live message keeps the client like the server; with every BLOB update delivered, BLOB vectors included |
| Replaying.ReplayAll | internal/indiserve/server.go:260-296 | from every valid child, exactly the properties asked for and wanted, once each, the properties of a device in byte order of their names |
| Replaying.JoinedReplay | internal/indiserve/server.go:260-296 | for children with different devices the replay is that of what they show together |
| Replaying.RunMerged | internal/indiserve/server.go:160-203 | what the children come to show, each folding its own elements, merged, is what one store folding all of them would show |
| Subscriptions.Client.Lookup | internal/indiserve/conn.go:146-155 | the policy set for the property, else for its device, else for everything, else Never |
| Subscriptions.Client.Take | internal/indiserve/conn.go:125-126 | an enableBLOB element sets the policy it spells; nothing else changes one |
| Subscriptions.ModesParse | internal/indiserve/conn.go:26-34 | the three modes as they are spelled; what trims and folds to neither also nor only means Never |
| Subscriptions.Client.Wants | internal/indiserve/conn.go:157-168 | under Only a client is sent deletions and the definitions and updates of BLOBs and nothing else, under Also everything, and under Never everything but BLOB updates |
| Subscriptions.PolicyLocal | internal/indiserve/conn.go:137-155 | a property's policy changes no other's, NUL bytes aside |
| Subscriptions.NoOnlyJoins | internal/indiserve/conn.go:157-168 | without an Only policy a client misses BLOB updates at most: what the late joiner needs |
| Subscriptions.AlsoAllJoins | internal/indiserve/conn.go:157-168 | with Also for everything it misses nothing: what the late joiner needs to follow BLOB vectors too |
| Subscriptions.OnlyMisses | internal/indiserve/conn.go:157-168 | with a global Only policy it misses every other definition |
| Observing.FoldTimeless | internal/snapshot/store.go:45-147 | arrival times aside, folding does not depend on the clock |
| Observing.AnyClock | internal/supervisor/run.go:183-191 | two observers of the same elements agree whatever their clocks |
| Observing.GoneEmpties | internal/supervisor/run.go:209-217 | one deletion for each live device leaves an observer with nothing |
| Presets.NumbersComplete | internal/supervisor/preset.go:91-127 | the numbers written have a value for every current member: presets where they say a number, current values elsewhere |
| Presets.NumbersSay | internal/supervisor/preset.go:119-130 | of each member the write says what the last due preset with a number for it says, over its current value; it names no others |
| Presets.SwitchesSay | internal/supervisor/preset.go:110-118 | a member is turned off exactly if a due preset has a value for it that folds to off, and on exactly if one has another |
| Presets.TextsSay | internal/supervisor/preset.go:131-136 | of a member a text write says what the last due preset for it says |
| Presets.TextsOnly | internal/supervisor/preset.go:131-136 | it names no member without a due preset |
| Presets.PresetsOnce | internal/supervisor/preset.go:94-104 | within an attempt no preset enters two writes; Attempt and Run conclude it of every attempt |
| Presets.DueIff | internal/supervisor/preset.go:94-104 | what is taken is exactly what is for the property, not yet marked, and before-connect or while serving |
| Presets.MarkedIff | internal/supervisor/preset.go:94-104 | taking marks exactly what is due and takes no mark back |
| Presets.DueOrdered | internal/supervisor/preset.go:94-104 | each due preset once, in the order of the configuration |
| Presets.SwitchWriteSays | internal/supervisor/preset.go:91-118 | of every switch write in the record: what it turns off and on, by the due presets it was made from |
| Presets.TextWriteSays | internal/supervisor/preset.go:91-136 | of every text write in the record: what it says of each member, by the due presets it was made from |
| Presets.AfterConnectServing | internal/supervisor/preset.go:94-104 | with CONNECT held, or with every before-connect preset marked, after-connect ones go out only while serving |
| Presets.DueTaken | internal/supervisor/preset.go:94-107 | marking and writing what is due keeps the record of writes gated |
| Supervising.SweepSpares | internal/supervisor/preset.go:65-89 | a sweep touches no before-connect preset: its property was defined in this attempt, so it has been taken |
| Supervising.Supervisor.Transition | internal/supervisor/supervisor.go:193-208 | phase and reason are stored one after the other, and retry tickers may run in between: it ends where some schedule of theirs leads |
| Supervising.Supervisor.Yield | internal/supervisor/run.go:106-121 | any schedule of retry tickers, stale ones included: from serving that they cannot take back, serving stays and every write of theirs is made while serving |
| Supervising.Supervisor.Retry | internal/supervisor/run.go:314-340 | one pending retry: CONNECT, or nothing when held, or back to acquiring with a reason still to be stored |
| Supervising.Supervisor.SendConnect | internal/supervisor/run.go:328-340 | CONNECT goes out exactly if not held and every before-connect preset is marked; with one outstanding the phase falls back to acquiring |
| Supervising.Supervisor.Tick | internal/supervisor/run.go:314-326 | while acquiring, exactly the wanted devices whose CONNECT switch is off are to be asked again |
| Supervising.Supervisor.ApplyPresetsFor | internal/supervisor/preset.go:94-146 | one write with exactly what is due, marks exactly that |
| Supervising.Supervisor.ApplyPresetDefs | internal/supervisor/preset.go:53-62 | the presets due for a definition go out in one write made from its own members and type, and are marked; any other element takes none; before-connect marks stay exact whatever tickers do meanwhile |
| Supervising.Supervisor.Sweep | internal/supervisor/preset.go:78-88 | one property of the sweep: if the snapshot has it, one write made from the vector there carries what is due |
| Supervising.Supervisor.SweepPresets | internal/supervisor/preset.go:65-89 | afterwards every preset has been taken whose property the device shows; before-connect marks are as they were; from serving that no ticker can take back, every write is made while serving |
| Supervising.Supervisor.RetryBeforeSweep | internal/supervisor/run.go:283-284 | in any state where serving has begun with a before-connect preset outstanding and a retry pending: if the retry comes before the sweep, a due after-connect preset is written in acquiring |
| Supervising.Supervisor.OnServing | internal/supervisor/run.go:298-309 | the polling period, if one is configured, is written first and once; then every preset is taken whose property the device shows |
| Supervising.Supervisor.EvalConnection | internal/supervisor/run.go:272-296 | serving begins exactly on a settled CONNECT and then sweeps; if no ticker can take it back, it lasts and every write that it sets off is made while serving; an alert or an off ends it; anything else leaves the phase alone |
| Supervising.Supervisor.Apply | internal/supervisor/run.go:165-205 | pings are answered and go no further; anything else reaches observer and store, in that order; afterwards both agree and the preset invariants hold; a CONNECTION definition has CONNECT written once the before-connect presets are done |
| Supervising.Supervisor.AnnounceGone | internal/supervisor/run.go:209-217 | one device-wide deletion per device |
| Supervising.Supervisor.ReadLoop | internal/supervisor/run.go:144-163 | the observer hears the elements in order; unless shut down, then a deletion for each live device |
| Supervising.Supervisor.Cleanup | internal/supervisor/run.go:72-97 | what is left is invalidated and announced |
| Supervising.Supervisor.EitherSite | internal/supervisor/run.go:72-97 | whichever site announces first, the other has nothing left |
| Supervising.Supervisor.Attempt | internal/supervisor/run.go:38-142 | observer mirror over an attempt: after it both are empty, and each device alive at the end was announced gone exactly once; its writes are those since its beginning, and no preset enters two of them |
| Waiting.KeyInjective | internal/supervisor/sender.go:137 | keys tell properties apart unless device names hold NUL bytes |
| Waiting.KeyIdentifiesIff | internal/supervisor/sender.go:137 | a property has its key to itself if and only if its names hold no NUL byte |
| Waiting.Waiters.Register | internal/supervisor/sender.go:139-149 | a fresh channel under its key |
| Waiting.Waiters.Notify | internal/supervisor/sender.go:151-159 | exactly the waiting channels of the key get one value; no channel ever gets two, so no send blocks |
| Queue.StepSums | internal/indiserve/conn.go:72-105 | each atomic step moves exactly the bytes it names between held and refused |
| Queue.StepKeeps | internal/indiserve/conn.go:72-105 | every step of every goroutine keeps the counter exact, the budget and the order |
| Queue.AdmittedIff | internal/indiserve/conn.go:69-77 | a message is admitted if and only if it fits 64 MiB with all that is held or being given back, or nothing of that has a byte |
| Queue.CallGoesOn | internal/indiserve/conn.go:78-88 | an admitted message goes into the channel while fewer than 256 are there and is refused when it is full or the connection is closed: one of the two is always possible |
| Selection.StepHears | internal/indiserve/server.go:44-69 | one client through one step of any goroutine |
| Selection.OldReplayOutlivesSelection | internal/indiserve/server.go:260-296 | a replay from an earlier copy does bring in a deselected child, but only to a client that has been closed |
| NatOrder.Chunk | internal/devtype/switchdev/device.go:145-152 | the leading run of digits or non-digits, and the rest |
| NatOrder.NatLess | internal/devtype/switchdev/device.go:125-143 | the loop computes the order on chunks |
| NatOrder.LessIsKeyLess | internal/devtype/switchdev/device.go:125-143 | where digit runs fit int64 it is the lexicographic order of keys |
| NatOrder.TotalWithoutZeros | internal/devtype/switchdev/device.go:123-143 | total on names without leading zeros |
| NatOrder.CycleBeyondInt64 | internal/devtype/switchdev/device.go:130-138 | with digit runs beyond int64 the order has a cycle |
| Switches.PinAllAppends | internal/devtype/switchdev/device.go:115-121 | pinning only appends, repeats nothing, misses nothing |
| Switches.FamiliesAre | internal/devtype/switchdev/bindings.go:26-45 | what contributes: exactly nine properties by their names, and four families by a name and a number |
| Switches.PairsSay | internal/devtype/switchdev/device.go:77-112 | a contributing switch or number vector is one switch if it consists of ON and OFF, in either order, and one for each member otherwise; any other is none |
| Switches.EnumeratedIff | internal/devtype/switchdev/device.go:85-121 | the switches after a refresh: those from before, and exactly these of the properties shown |
| Switches.UntiedUnique | internal/devtype/switchdev/device.go:85-113 | if no two contributing names tie, every sorted arrangement enumerates the same |
| Switches.PulsesTieIff | internal/devtype/switchdev/device.go:125-143 | two outputs of a numbered family tie if and only if their numbers have the same value |
| Switches.PulsesTie | internal/devtype/switchdev/device.go:85-113 | a snapshot with PULSE_1 and PULSE_01: both orders are sorted, and the ids of their switches are exchanged |
| Fits.GivenIsLast | internal/imagepath/header.go:33-72 | the value of a key is that of the last card to give it one, and there is none exactly if no card does |
| Fits.KeyIff | internal/imagepath/header.go:33-46 | the key of a card is what its first eight characters say up to the blanks after it |
| Fits.EndIff | internal/imagepath/header.go:37-43 | the header ends at the card that says END and, but for blanks, nothing else |
| Fits.UpperFolds | internal/imagepath/header.go:66-72 | folding to capitals leaves no small letter and takes the same names for one as folding to small letters |
| Fits.CommentCut | internal/imagepath/header.go:46-50 | a value that is no string ends at the comment |
| Fits.QuotedValue | internal/imagepath/header.go:83-95 | a string value is what stands between the quotes, slashes and all, without trailing blanks |
| Fits.TowardZero | internal/imagepath/header.go:74-81 | a whole number is a read one without its fraction, whatever its sign |
| Fits.TakenIff | internal/imagepath/transcode.go:18-52 | a frame is taken if and only if it has two axes, both positive, scale one, all its pixels, and one of the five pairs of bits and zero |
| Fits.LeastBlockLeast | internal/imagepath/header.go:40-43 | the data offset is the least multiple of 2880 at or past the END card |
| Fits.TopFlip | internal/imagepath/transcode.go:37-53 | flipping the top bit of a byte adds 128 modulo 256 |
| Fits.PixelValue | internal/imagepath/transcode.go:62-77 | swapping and flipping a pixel adds BZERO to its value (FITS 4.0, sections 4.4.2.5 and 5.2.5) |
| Fits.ConvertRow | internal/imagepath/transcode.go:65-77 | every pixel of a row is converted, in place |
| Fits.Pixels | internal/imagepath/transcode.go:57-78 | every row comes from its source row |
| Recording.Uint32Back | internal/transport/record.go:37-46 | lengths below 2^32 read back |
| Recording.Recorder.Read | internal/transport/record.go:64-82 | a read's bytes, if any, then its descriptors, are framed in order |
| Recording.FrameItems | internal/transport/record.go:37-46 | a frame reads back as its record |
| Recording.ReplaysAll | internal/transport/record.go:64-161 | a recording gives a replay exactly what the live reader was given |
| Recording.CutItems | internal/transport/record.go:128-145 | a recording cut anywhere within a frame replays what the frames before it give and then ends, or fails if the payload had begun |
| Recording.UnknownItems | internal/transport/record.go:146-161 | a frame of no known type fails where it stands, and the frames after it still replay |
| Recording.Replayer.Open | internal/transport/record.go:107-120 | opens exactly what starts with the magic |
| Recording.Replayer.Read | internal/transport/record.go:128-161 | for any file and size: between one and that many bytes; a descriptor is queued after all earlier bytes were read and before any later one, so not together with the bytes it came with; a cut header is EOF |
| Recording.FirstRead | internal/transport/record.go:128-161 | for every recorded first read and every size: the replay returns bytes of it with none of its descriptors queued, where the live connection had queued them all |
| Recording.QueuesAgreeIff | internal/transport/record.go:128-161 | for any recorded read with bytes, when a replay has just returned the last of them: the queue is the one from before that read, and the live one if and only if the read carried no descriptors |
| Recording.ReadThrough | internal/transport/record.go:128-161 | the replay of any recorded read with bytes, byte by byte, reaches such a moment |
| Recording.LateDescriptor | internal/transport/record.go:128-161 | one byte and one descriptor: the byte comes back, the descriptor is not there |
| Ekos.CatalogDevice | internal/host/webmanager_catalog.go:67-96 | of the lines whose binary has the last name of the entry's: one labelled like the entry, else one labelled like its device, else the only one, else the only one that is its own driver's, else none |
| Ekos.BaseIs | internal/host/webmanager_catalog.go:67-73 | the last name of a path: what stands after its last slash, trailing ones aside |
| Ekos.EkosProfile | internal/host/webmanager_catalog.go:119-140 | a profile as labels, each once, in order of first use |
| Ekos.LabelsExtend | internal/host/webmanager_catalog.go:120-140 | one name more adds its label at the end, if it is new, and changes nothing before it |
| Ekos.ConfiguredSelections | internal/host/webmanager_catalog.go:145-190 | labels as instances, or the first error |
| Ekos.OwnLabel | internal/host/webmanager_catalog.go:145-165 | an instance is a candidate for its own label |
| Ekos.NothingElseEnabled | internal/host/webmanager_catalog.go:142-190 | whatever is returned was in the profile or is its label's only configured match |
| Configuration.CheckFile | internal/host/config.go:111-170 | accepts exactly the well-formed: fields, ranges, unique names, and with Alpaca unique ports, disabled entries included |
| Management.ProfileMatches | internal/host/webmanager.go:101-112 | the counting loop decides whether the enabled names are the selected ones |
| Management.Management.Validate | internal/host/management.go:245-267 | decoded, well formed and runnable here |
| Management.Management.StopUnwanted | internal/host/management.go:331-343 | stops only what should not run; reports one that will not stop |
| Management.Management.StartMissing | internal/host/management.go:354-358 | starts exactly what is missing, keeps the rest |
| Management.Management.SyncRoutes | internal/host/management.go:148-169 | exposes what runs, in configuration order |
| Management.RoutesIff | internal/host/management.go:148-169 | exactly the runtimes that were built, of devices that are configured |
| Management.RoutesInTwo | internal/host/management.go:148-169 | in the order of the configuration: what later devices bring comes after what earlier ones bring |
| Management.Management.StartWebProfile | internal/host/webmanager.go:415-461 | goes ahead if and only if the profile is for the listener there is, local, of configured instances, none twice, and the save is accepted; done, exactly its instances are enabled and running, and it is the active one |
| Management.Management.StopWebProfile | internal/host/webmanager.go:407-414 | no active profile; routes as configured |
| Management.Management.Mutate | internal/host/management.go:380-416 | goes ahead if and only if the name is known, a deletion is of a disabled device, and the save is accepted; otherwise nothing changes, and then the configuration is the old one with exactly that change to the entry of that name, what runs is reconciled, and others keep their runtimes |
| Plaintext.LawfulCodec | internal/host/management.go:366-371 | what is assumed of configuration text can be had: some encoding loses nothing of any file |

## Left out
- Floating-point text: `%.20g` and ParseNumber are an abstract pair with a stated inverse law.
- What a diagnostics callback is told of stray text, the intern table, and reuse of the element's storage between calls.
- Errors of a BLOB sink, and allocation failure for a huge announced BLOB size.
- Enumeration bytes outside their range, and the invalid kind: the datatypes have no such values.
- Limits.AnyStreamReplayable: BLOB payloads are not part of a snapshot, so their size is not bounded here.
- Wrap-around of the 64-bit generation counter; generations are unbounded.
- Wire order of replay against live publication on one connection: a joiner's replay is taken to come first.
- Server.forward and childFor: routing of client writes to a child, and the duplicate-name warning.
- Supervising.Supervisor.RawWrite: the supervisor's writes are message values; `Writing` gives the texts of such messages.
- Supervising.Supervisor.ApplyPresetsFor: marking the due presets and writing them are one step for the retry tickers, as are the check of the marks and the CONNECT write or the phase that follows it.
- parsePresets: the split at the first dot and the sorting; presets are any list.
- deliverBlobs: descriptor hand-over and mapping of shared-memory BLOBs.
- The DISCONNECT writes at shutdown, process signals and grace periods, and back-off times with the report whether an attempt served.
- An observer installed after the start: the supervisor's observer is there from the first attempt.
- Queue.EveryRun: that a client which keeps reading is never dropped is not stated; a refused message in flight can make another one be refused.
- WaitSettle and WaitUpdate: they look before they register, so an update in between wakes nobody.
- The typed switch getters and setters, SetPreconnect, and the other device types.
- Infinite and NaN header values, and frame sizes beyond 64-bit arithmetic, in FITS.
- Recording.ReplaysAll: payloads of 2^32 bytes and more, whose length field wraps.
- Reading the INDI catalog from XML, and the sorted catalog for Ekos; the catalog is a list.
- JSON itself, SHA-256, the atomic file replacement and UDP discovery; the Alpaca servers a runtime holds.
