# SimpleQuanda conversation tree, modelled in Dafny

`SimpleQuanda` is a small conversation tree. Each node holds a question
(`Q`), a canned answer that stands in for a language model (`mA`) and an
optional link to the node it was asked from (`parent`). Asking a node a new
question makes a child node. Calling a node gives a generator that streams
the canned answer one character at a time. The generator stores the answer
(`A`) only once the stream is exhausted. `wait` drains such a generator and
returns `A`; `done` says whether `A` exists. `messages` walks the parent
chain, root first. It yields a question record and an answer record per
node, each stamped with the node's distance from the asking node. That
distance is counted by `SimpleQuandaOracle`. `len`, indexing and slicing treat
the root-to-node path as a Python sequence.

Modules, following the source's structure:

- `PyValues` (`pyvalues.dfy`): `Option`, `Result` and the three Python
  exceptions the modelled behaviour raises (`IndexError`, `TypeError`,
  `AttributeError`); interpreter limits such as recursion depth are not modelled.
- `PySeq` (`pyseq.dfy`): Python's subscript rules on a sequence. It covers
  negative indices, and slices with omitted, negative and clamped bounds.
- `Oracle` (`oracle.dfy`): `SimpleQuandaOracle` as a value.
- `AnswerStream` (`answer_stream.dfy`): the generator body of `__call__` as an
  explicit state machine. `Resume` is one `next()`, `Run` is several.
  `Stream` and `Drained` are closed-form reference definitions of what one
  generator yields and what it leaves in `A`.
- `Context` (`context.dfy`): `messages` on values (question/answer entries),
  with the order and distance property.
- `Quanda` (`quanda.dfy`): class `SimpleQuanda` and class `QuandaStream`, the
  generator object. `QuandaStream.Next` updates the node's `answer` field in
  place. Its contract ties it to `Resume`.
- `Demo` (`demo.dfy`): the module's `__main__` script as client code. What it
  computes (`done()`, the streamed tokens, `len`, `[1]`, `[0:2]` and the
  records of `messages()`) is stated in postconditions; the text it prints is
  not modelled.

Naming: `Q`, `mA`, `A` and `lazy` are the fields `question`, `mockAnswer`,
`answer` and `lazy`. anytree's `node.path` is the ghost `Path()` (the ghost
`ancestors` plus the node itself), built from `parent` links, root first.
`NodePath()` computes it by walking the parent links. The `lazy` flag is a
`const` set to true by the constructor, because nothing in the file clears it.
The non-lazy branch of `__call__` (`yield self.A`) is still modelled. A `None` mock
answer raises `TypeError` at the first `next()`. A slice subscript passes only
its start and stop to `__getslice__`, so its step is ignored.

Two behaviours of the code worth knowing:
- `lazy` is never cleared, so every call of a node streams `mA` again, even
  after `A` is set. `wait` still returns the same value every time, because
  `mA` never changes.
- Indexing goes to a Python tuple, so `-len <= i < 0` counts from the end.
  Only indices outside `[-len, len)` raise `IndexError`.

## Model

| member | source | states |
|---|---|---|
| PySeq.ResolveIndex | SnippetsCode/Snippet2RealtimeMongoTree/QuandaClass.py/simplequanda.py:112 | a subscript is valid exactly when `-n <= i < n`; the position read is then `i mod n`, below `n` |
| PySeq.At | SnippetsCode/Snippet2RealtimeMongoTree/QuandaClass.py/simplequanda.py:112 | `s[i]` returns `s[i mod len]` exactly when `-len <= i < len` and raises IndexError otherwise |
| PySeq.Slice | SnippetsCode/Snippet2RealtimeMongoTree/QuandaClass.py/simplequanda.py:116 | `path[i:j]` with omitted, negative and out-of-range bounds clamped; SliceSelects, SliceWhole and SliceLength state what it selects |
| PySeq.SliceSelects | SnippetsCode/Snippet2RealtimeMongoTree/QuandaClass.py/simplequanda.py:116 | a slice holds exactly the positions selected by its unclamped bounds (negative ones counted from the end), in their original order |
| PySeq.SliceWhole | SnippetsCode/Snippet2RealtimeMongoTree/QuandaClass.py/simplequanda.py:116 | a slice whose bounds reach past both ends is the whole sequence; it never raises |
| PySeq.SliceLength | SnippetsCode/Snippet2RealtimeMongoTree/QuandaClass.py/simplequanda.py:116 | a slice is as long as its clamped range, or empty when the range is empty |
| Oracle.NewOracle | SnippetsCode/Snippet2RealtimeMongoTree/QuandaClass.py/simplequanda.py:16-21 | the count is 0 without a child and the child's count plus one otherwise, so it stays equal to the number of hops back to the first oracle |
| Oracle.OracleAfterCounts | SnippetsCode/Snippet2RealtimeMongoTree/QuandaClass.py/simplequanda.py:16-21 | the oracle built `k` hops from the asking node reports distance `k` |
| AnswerStream.Resume | SnippetsCode/Snippet2RealtimeMongoTree/QuandaClass.py/simplequanda.py:50-68 | one `next()` of the generator body; RunFollowsStream and PartialResume tie its iteration to the reference definitions `Stream` and `Drained` |
| AnswerStream.Run | SnippetsCode/Snippet2RealtimeMongoTree/QuandaClass.py/simplequanda.py:50-68 | only a length fact: `n` calls of `next()` produce `n` steps; what the steps are is stated by RunFollowsStream |
| AnswerStream.StreamShape | SnippetsCode/Snippet2RealtimeMongoTree/QuandaClass.py/simplequanda.py:50-68 | a generator yields some fragments and then ends once, by StopIteration or by an exception |
| AnswerStream.EmittedChars | SnippetsCode/Snippet2RealtimeMongoTree/QuandaClass.py/simplequanda.py:63-65 | the characters of a string, yielded one per fragment, concatenate back to that string |
| AnswerStream.DrainedText | SnippetsCode/Snippet2RealtimeMongoTree/QuandaClass.py/simplequanda.py:60-68 | fully draining a lazy node's generator yields the characters of `mA`, in order, one per fragment, and their concatenation is `mA`; an empty `mA` yields nothing |
| AnswerStream.LoopingRun | SnippetsCode/Snippet2RealtimeMongoTree/QuandaClass.py/simplequanda.py:60-66 | after `k` fragments the generator holds the first `k` characters as its partial answer and `A` is untouched |
| AnswerStream.RunFollowsStream | SnippetsCode/Snippet2RealtimeMongoTree/QuandaClass.py/simplequanda.py:50-68 | `n` steps of a fresh generator are the first `n` steps of its stream; until the end `A` keeps its old value (an abandoned stream leaves `done()` as it was); at the end `A` holds `mA` (lazy) or is unchanged, and the generator is finished |
| AnswerStream.RunAfterEnd | SnippetsCode/Snippet2RealtimeMongoTree/QuandaClass.py/simplequanda.py:50-68 | a finished generator only ends the iteration again and never writes `A` |
| AnswerStream.RunSplit | SnippetsCode/Snippet2RealtimeMongoTree/QuandaClass.py/simplequanda.py:50-68 | `a` steps followed by `b` steps equal `a + b` steps: a consumer can stop and a second one resume the same generator |
| AnswerStream.PartialResume | SnippetsCode/Snippet2RealtimeMongoTree/QuandaClass.py/simplequanda.py:60-68 | stopping after `k` fragments leaves `A` alone; resuming to the end yields the rest, the two parts concatenate to `mA`, and `A` becomes `mA` |
| AnswerStream.EmittedStop | SnippetsCode/Snippet2RealtimeMongoTree/QuandaClass.py/simplequanda.py:67-68 | the terminal step of a generator contributes no text |
| Context.LeadingAnswered | SnippetsCode/Snippet2RealtimeMongoTree/QuandaClass.py/simplequanda.py:87 | the result is the length of the longest answered prefix: all before it have an answer, the entry at it has none |
| Context.TranscriptOrder | SnippetsCode/Snippet2RealtimeMongoTree/QuandaClass.py/simplequanda.py:70-87 | records come root first, question then answer; the entry at position `i` carries distance `c + (n - 1 - i)`; `2n` records and no error when all are answered, otherwise AttributeError right after the first unanswered question |
| Quanda.SimpleQuanda.constructor | SnippetsCode/Snippet2RealtimeMongoTree/QuandaClass.py/simplequanda.py:29-40 | the node keeps its question, parent and mock answer, has no answer, its `lazy` is true, and its path is the parent's path plus itself |
| Quanda.SimpleQuanda.Ask | SnippetsCode/Snippet2RealtimeMongoTree/QuandaClass.py/simplequanda.py:42-45 | a fresh child whose parent is this node, with the given question and mock answer, not done, one longer path; this node is not modified |
| Quanda.SimpleQuanda.Done | SnippetsCode/Snippet2RealtimeMongoTree/QuandaClass.py/simplequanda.py:98-99 | whether `A` exists; Wait makes it true on a lazy node with a mock answer, DonePrefix counts the done nodes at the front of a path |
| Quanda.SimpleQuanda.PathLength | SnippetsCode/Snippet2RealtimeMongoTree/QuandaClass.py/simplequanda.py:121-122 | the path holds depth + 1 nodes, the root having depth 0 |
| Quanda.SimpleQuanda.PathIsParentChain | SnippetsCode/Snippet2RealtimeMongoTree/QuandaClass.py/simplequanda.py:32-34 | the path starts at a root, ends at this node, and each node on it is the parent of the next |
| Quanda.SimpleQuanda.PathPrefixes | SnippetsCode/Snippet2RealtimeMongoTree/QuandaClass.py/simplequanda.py:32-34 | the path of the node at position `k` is the first `k + 1` nodes of this path |
| Quanda.SimpleQuanda.PathDistinct | SnippetsCode/Snippet2RealtimeMongoTree/QuandaClass.py/simplequanda.py:32-34 | no node occurs twice on a path: the parent chain is acyclic |
| Quanda.SimpleQuanda.NodePath | SnippetsCode/Snippet2RealtimeMongoTree/QuandaClass.py/simplequanda.py:112 | walking the parent links gives exactly the root-to-node path |
| Quanda.SimpleQuanda.Len | SnippetsCode/Snippet2RealtimeMongoTree/QuandaClass.py/simplequanda.py:121-122 | `len(self)` is depth + 1 |
| Quanda.SimpleQuanda.GetSlice | SnippetsCode/Snippet2RealtimeMongoTree/QuandaClass.py/simplequanda.py:114-119 | the list built node by node is the Python slice `path[i:j]` |
| Quanda.SimpleQuanda.GetItem | SnippetsCode/Snippet2RealtimeMongoTree/QuandaClass.py/simplequanda.py:109-112 | an integer gives the path node by Python index rules or IndexError; a slice gives `path[start:stop]`, whatever its step |
| Quanda.SimpleQuanda.PathIndexing | SnippetsCode/Snippet2RealtimeMongoTree/QuandaClass.py/simplequanda.py:109-112 | `self[len-1]` and `self[-1]` are the node itself, `self[0]` (also `self[-len]`) is a root, and exactly the indices outside `[-len, len)` raise |
| Quanda.SimpleQuanda.WholeSlice | SnippetsCode/Snippet2RealtimeMongoTree/QuandaClass.py/simplequanda.py:114-119 | `self[-100:100]` is the whole path on paths of up to 100 nodes |
| Quanda.SimpleQuanda.Messages | SnippetsCode/Snippet2RealtimeMongoTree/QuandaClass.py/simplequanda.py:70-87 | `messages(self_oracle)`: the parent's records with a one-hop-further oracle, then the node's Q and A; MessagesIsTranscript and MessagesOrder state its content |
| Quanda.SimpleQuanda.MessagesIsTranscript | SnippetsCode/Snippet2RealtimeMongoTree/QuandaClass.py/simplequanda.py:70-87 | the recursion over parent links builds the transcript of the path's entries, this node at the starting distance |
| Quanda.SimpleQuanda.OracleUpCounts | SnippetsCode/Snippet2RealtimeMongoTree/QuandaClass.py/simplequanda.py:70-79 | the oracle `messages` hands `k` hops up, from an oracle `j` hops out, is the one built `j + k` hops out and reports `j + k` |
| Quanda.SimpleQuanda.MessagesOracles | SnippetsCode/Snippet2RealtimeMongoTree/QuandaClass.py/simplequanda.py:70-87 | the distance on each done node's Q and A record in `messages()` is the count of the oracle threaded up to that node (`OracleUp`), `len - 1 - i` for path position `i` |
| Quanda.SimpleQuanda.DonePrefix | SnippetsCode/Snippet2RealtimeMongoTree/QuandaClass.py/simplequanda.py:98-99 | the number of leading path nodes that are done; the node after them is not |
| Quanda.SimpleQuanda.MessagesOrder | SnippetsCode/Snippet2RealtimeMongoTree/QuandaClass.py/simplequanda.py:70-87 | `messages()` yields `2 * len` records, root first, Q before A, node at position `i` at distance `len - 1 - i` (this node 0, its parent 1), exactly when every path node is done; otherwise AttributeError follows the first undone node's question |
| Quanda.SimpleQuanda.Call | SnippetsCode/Snippet2RealtimeMongoTree/QuandaClass.py/simplequanda.py:50 | calling a node makes a new generator that has not run and changes nothing |
| Quanda.SimpleQuanda.Wait | SnippetsCode/Snippet2RealtimeMongoTree/QuandaClass.py/simplequanda.py:90-95 | a lazy node returns `mA` and is done afterwards; a `None` mock answer raises TypeError and leaves `A`; a non-lazy node returns the existing `A` or raises AttributeError |
| Quanda.QuandaStream.constructor | SnippetsCode/Snippet2RealtimeMongoTree/QuandaClass.py/simplequanda.py:50 | the generator belongs to its node and has not started |
| Quanda.QuandaStream.Next | SnippetsCode/Snippet2RealtimeMongoTree/QuandaClass.py/simplequanda.py:50-68 | one `next()` moves the generator and the node's `A` exactly as the state machine `Resume` does |
| Quanda.QuandaStream.Advance | SnippetsCode/Snippet2RealtimeMongoTree/QuandaClass.py/simplequanda.py:62-68 | one loop turn yields the next character and extends the partial answer; when the text is used up, `A` becomes the whole answer |
| Demo.StreamAll | SnippetsCode/Snippet2RealtimeMongoTree/QuandaClass.py/simplequanda.py:147-148 | a `for token in node()` loop over a fresh lazy node sees the tokens concatenate to `mA`, and the node is then answered |
| Demo.WaitTwice | SnippetsCode/Snippet2RealtimeMongoTree/QuandaClass.py/simplequanda.py:90-95 | waiting twice returns the same `mA` both times, and the node is done |
| Demo.TwoNodePath | SnippetsCode/Snippet2RealtimeMongoTree/QuandaClass.py/simplequanda.py:163-172 | on a root-and-child chain `[1]` is the child itself and `[0:2]` is `[root, child]` |
| Demo.TwoNodeContext | SnippetsCode/Snippet2RealtimeMongoTree/QuandaClass.py/simplequanda.py:175-176 | the child's context is the root's Q and A at distance 1, then its own at distance 0 |
| Demo.Scenario | SnippetsCode/Snippet2RealtimeMongoTree/QuandaClass.py/simplequanda.py:126-176 | the root is done after `wait`; the follow-up streams "My authentication service.", has length 2, `[1]` is itself, `[0:2]` is `[quanda1, quanda2]`, and its context is the four records at distances 1, 1, 0, 0 |

## Left out

- anytree and the `str(id(self))` node names: the tree is the explicit `parent` chain, and object identity strings carry no behaviour.
- `SimpleQuanda.__str__`, `SimpleQuandaOracle.__str__` and the printing in the script: output is not modelled. The `"@"` value of a record is `str(oracle)`, the decimal form of the count; the model carries the count as a number.
- The compression of far ancestors at `messages` line 82: it is a comment with no code.
- Concurrency and Python generator methods other than `next()` (`send`, `throw`, `close`): the file is single-threaded and uses generators only in `for` loops.
- Subscripts that are neither integers nor slices of integers or `None` (which Python would reject with TypeError): keys are modelled as typed values.
- Quanda.SimpleQuanda.WholeSlice: states `self[-100:100]` only for paths of at most 100 nodes, because on a path of n > 100 nodes the slice is `path[n-100:100]`: it loses the first and the last n - 100 nodes, and it is empty once n >= 200 (the general statement is PySeq.SliceWhole).
- The two model streamers (ollama and litellm), the model listing and its JSON configuration file. They wrap external network services. They are not part of this model.
- `messages` is a lazy generator: it reads a node's `A` only when that node's answer record is pulled. Quanda.SimpleQuanda.Messages evaluates all records in one state, so it does not capture a consumer that drains a stream while iterating `messages()`.
- `mA` is modelled as an optional string. In Python `for char in self.mA` accepts any iterable, so a list of tokens would stream token by token and any other non-iterable would raise TypeError. The file only passes strings or `None`.
- Python's recursion limit: `messages` opens one nested generator per ancestor (line 79), so on a chain deeper than the interpreter's limit (1000 frames by default) iterating it raises RecursionError. Quanda.SimpleQuanda.Messages has no depth bound and returns the whole transcript.
