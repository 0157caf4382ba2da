/** The context a node's `messages` builds, on values: each node of the path
    reduced to its question and its (possibly absent) answer. */
module Context {
  import opened PyValues

  /** One path node as `messages` sees it. */
  datatype Entry = Entry(question: string, answer: Option<string>)

  /** One record yielded by `messages`: `{"Q": ..., "@": ...}` or
      `{"A": ..., "@": ...}`, with the oracle's count as the distance. */
  datatype Record = QRecord(question: string, at: nat) | ARecord(answer: string, at: nat)

  /** What draining `messages` gives: the records yielded, and the exception
      that ended the iteration early, if any. */
  datatype Emission = Emission(records: seq<Record>, error: Option<PyError>)

  /** How many entries at the front of `es` have an answer. */
  function LeadingAnswered(es: seq<Entry>): (j: nat)
    ensures j <= |es|
    ensures forall i :: 0 <= i < j ==> es[i].answer.Some?
    ensures j < |es| ==> es[j].answer.None?
  {
    if es == [] then 0
    else
      var j := LeadingAnswered(es[..|es| - 1]);
      if j == |es| - 1 && es[|es| - 1].answer.Some? then |es| else j
  }

  /** The records for a path whose last entry is the node asked at distance
      `c`: the earlier entries first, each one hop further away, then the last
      entry's question and answer. A missing answer raises AttributeError. */
  function Transcript(es: seq<Entry>, c: nat): Emission {
    if es == [] then Emission([], None)
    else
      var last := es[|es| - 1];
      var before := Transcript(es[..|es| - 1], c + 1);
      if before.error.Some? then before
      else
        var withQuestion := before.records + [QRecord(last.question, c)];
        if last.answer.None? then Emission(withQuestion, Some(AttributeError))
        else Emission(withQuestion + [ARecord(last.answer.value, c)], None)
  }

  /** The records are in path order, question before answer, and the entry
      at position `i` is stamped `c + (|es| - 1 - i)`. The transcript stops at
      the first entry without an answer, after its question. */
  lemma {:induction false} TranscriptOrder(es: seq<Entry>, c: nat)
    ensures var e, j := Transcript(es, c), LeadingAnswered(es);
      && (e.error.None? <==> j == |es|)
      && (e.error.Some? ==> e.error.value == AttributeError)
      && |e.records| == (if j == |es| then 2 * |es| else 2 * j + 1)
      && (forall i :: 0 <= i < j ==>
            && e.records[2 * i] == QRecord(es[i].question, c + (|es| - 1 - i))
            && e.records[2 * i + 1] == ARecord(es[i].answer.value, c + (|es| - 1 - i)))
      && (j < |es| ==> e.records[2 * j] == QRecord(es[j].question, c + (|es| - 1 - j)))
  {
    if es != [] {
      var n := |es|;
      var front := es[..n - 1];
      TranscriptOrder(front, c + 1);
      var before, j' := Transcript(front, c + 1), LeadingAnswered(front);
      assert forall i :: 0 <= i < n - 1 ==> front[i] == es[i];
      if j' == n - 1 && before.error.None? {
        var e := Transcript(es, c);
        forall i | 0 <= i < n - 1
          ensures e.records[2 * i] == before.records[2 * i]
          ensures e.records[2 * i + 1] == before.records[2 * i + 1]
        {
        }
      }
    }
  }
}
