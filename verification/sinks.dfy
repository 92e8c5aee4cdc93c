/** Output destinations. A sink stands for an io.Writer: only its identity
    matters, and what it has received is an append-only sequence of writes. */
module Sinks {

  /** The process's standard output, or any other writer, known by an id. */
  datatype Sink = Stdout | Writer(id: nat)

  /** One write call on a sink. `Text` is rendered output. `LevelNotice` stands
      for the line a level-gated call prints on standard output instead, kept
      as the two numbers it reports: the logger's level and the level required. */
  datatype Write = Text(text: string) | LevelNotice(has: int, required: int)

  /** What every sink has received so far; a sink not in the map has received nothing. */
  type Streams = map<Sink, seq<Write>>

  function Contents(st: Streams, k: Sink): seq<Write>
  {
    if k in st then st[k] else []
  }

  /** Appends `ws` to sink `k`; every other sink keeps what it had. */
  function Append(st: Streams, k: Sink, ws: seq<Write>): (r: Streams)
    ensures Contents(r, k) == Contents(st, k) + ws
    ensures forall o :: o != k ==> Contents(r, o) == Contents(st, o)
  {
    st[k := Contents(st, k) + ws]
  }

  /** Every sink of `st'` extends what the same sink held in `st`. */
  ghost predicate Grows(st: Streams, st': Streams)
  {
    forall k :: Contents(st, k) <= Contents(st', k)
  }

  /** The rendered text a sequence of writes carries, in order; notices are dropped. */
  function Texts(ws: seq<Write>): seq<string>
  {
    if ws == [] then [] else TextOf(ws[0]) + Texts(ws[1..])
  }

  /** The text one write carries: its text, or nothing for a notice. */
  function TextOf(w: Write): seq<string>
  {
    if w.Text? then [w.text] else []
  }

  /** Text extraction distributes over concatenation of write sequences. */
  lemma {:induction false} TextsAppend(a: seq<Write>, b: seq<Write>)
    ensures Texts(a + b) == Texts(a) + Texts(b)
  {
    if a == [] {
      assert a + b == b;
    } else {
      assert (a + b)[0] == a[0];
      assert (a + b)[1..] == a[1..] + b;
      TextsAppend(a[1..], b);
      assert Texts(a + b) == TextOf(a[0]) + (Texts(a[1..]) + Texts(b));
    }
  }

  /** Appending a level notice leaves a sink's text unchanged. */
  lemma TextsOfNotice(prior: seq<Write>, has: int, required: int)
    ensures Texts(prior + [LevelNotice(has, required)]) == Texts(prior)
  {
    TextsAppend(prior, [LevelNotice(has, required)]);
  }
}
