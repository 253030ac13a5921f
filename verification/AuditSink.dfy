/** The buffer of audit events (internal/audit/sink.go): events are appended under a lock, the oldest
    are dropped past a maximum, and a single loop takes batches off the front and publishes each batch
    grouped by subject. Every event is accounted for, and each subject's events leave in the order in
    which they were added. */
module AuditSink {
  import opened Bytes
  import opened Seqs

  const MAX_ITEMS := 256
  const MAX_SIZE := 512 * 1024
  const MAX_PENDING := 50000

  datatype Item = Item(subject: string, body: bytes)

  datatype Message = Message(subject: string, items: seq<Item>)

  function SizeOf(items: seq<Item>): nat {
    if items == [] then 0 else SizeOf(items[..|items| - 1]) + |items[|items| - 1].body| + 2
  }

  /** As many as may wait, the oldest gone. */
  function Newest(items: seq<Item>): seq<Item> {
    if |items| > MAX_PENDING then items[|items| - MAX_PENDING..] else items
  }

  // ---- messages by subject ----

  function IsFor(subject: string): Item -> bool {
    (it: Item) => it.subject == subject
  }

  function For(items: seq<Item>, subject: string): seq<Item> {
    Filter(items, IsFor(subject))
  }

  /** The subjects of a batch, in order of first appearance. */
  function Subjects(items: seq<Item>): seq<string> {
    if items == [] then []
    else
      var (front, last) := (Subjects(items[..|items| - 1]), items[|items| - 1]);
      if last.subject in front then front else front + [last.subject]
  }

  function MessagesFor(order: seq<string>, items: seq<Item>): seq<Message> {
    if order == [] then []
    else
      var (front, last) := (order[..|order| - 1], order[|order| - 1]);
      MessagesFor(front, items) + [Message(last, For(items, last))]
  }

  /** What publishing a batch sends. */
  function Grouped(items: seq<Item>): seq<Message> {
    MessagesFor(Subjects(items), items)
  }

  /** Everything sent to a subject, in order. */
  function SentTo(sent: seq<Message>, subject: string): seq<Item> {
    if sent == [] then []
    else
      var last := sent[|sent| - 1];
      SentTo(sent[..|sent| - 1], subject) + if last.subject == subject then last.items else []
  }

  lemma {:induction false} SubjectsDistinct(items: seq<Item>)
    ensures NoRepeat(Subjects(items))
    ensures forall s :: s in Subjects(items) <==> exists i :: 0 <= i < |items| && items[i].subject == s
  {
    if items != [] {
      SubjectsDistinct(items[..|items| - 1]);
    }
  }

  lemma {:induction false} SentToConcat(a: seq<Message>, b: seq<Message>, subject: string)
    ensures SentTo(a + b, subject) == SentTo(a, subject) + SentTo(b, subject)
  {
    if b == [] {
      assert a + b == a;
    } else {
      assert (a + b)[..|a + b| - 1] == a + b[..|b| - 1];
      SentToConcat(a, b[..|b| - 1], subject);
    }
  }

  lemma SentToOneMore(sent: seq<Message>, m: Message, subject: string)
    ensures SentTo(sent + [m], subject) == SentTo(sent, subject) + if m.subject == subject then m.items else []
  {
    assert (sent + [m])[..|sent|] == sent;
  }

  lemma {:induction false} SentToMessages(order: seq<string>, items: seq<Item>, subject: string)
    requires NoRepeat(order)
    ensures SentTo(MessagesFor(order, items), subject) == if subject in order then For(items, subject) else []
  {
    hide For, SentTo;
    if order != [] {
      var (front, last) := (order[..|order| - 1], order[|order| - 1]);
      SentToMessages(front, items, subject);
      assert order == front + [last] && last !in front;
      SentToOneMore(MessagesFor(front, items), Message(last, For(items, last)), subject);
    } else {
      SentToNothing(subject);
    }
  }

  lemma SentToNothing(subject: string)
    ensures SentTo([], subject) == []
  {
  }

  /** Grouping loses nothing, repeats nothing and keeps each subject's order. */
  lemma GroupedSends(items: seq<Item>, subject: string)
    ensures SentTo(Grouped(items), subject) == For(items, subject)
  {
    SubjectsDistinct(items);
    SentToMessages(Subjects(items), items, subject);
    if subject !in Subjects(items) {
      FilterNone(items, IsFor(subject));
    }
  }

  ghost predicate AppearsBefore(items: seq<Item>, s: string, t: string) {
    exists i :: 0 <= i < |items| && items[i].subject == s && forall j | 0 <= j <= i :: items[j].subject != t
  }

  lemma AppearsStill(items: seq<Item>, s: string, t: string)
    requires items != [] && AppearsBefore(items[..|items| - 1], s, t)
    ensures AppearsBefore(items, s, t)
  {
    var front := items[..|items| - 1];
    var i :| 0 <= i < |front| && front[i].subject == s && forall j | 0 <= j <= i :: front[j].subject != t;
    assert forall j | 0 <= j < |front| :: items[j] == front[j];
  }

  lemma {:induction false} SubjectsInTurn(items: seq<Item>, k: nat, l: nat)
    requires k < l < |Subjects(items)|
    ensures AppearsBefore(items, Subjects(items)[k], Subjects(items)[l])
  {
    hide AppearsBefore;
    var front, last := items[..|items| - 1], items[|items| - 1].subject;
    SubjectsDistinct(front);
    if l < |Subjects(front)| {
      SubjectsInTurn(front, k, l);
      AppearsStill(items, Subjects(items)[k], Subjects(items)[l]);
    } else {
      AppearsFirst(items, Subjects(items)[k]);
    }
  }

  lemma AppearsFirst(items: seq<Item>, s: string)
    requires items != [] && s in Subjects(items[..|items| - 1])
    requires items[|items| - 1].subject !in Subjects(items[..|items| - 1])
    ensures AppearsBefore(items, s, items[|items| - 1].subject)
  {
    var front := items[..|items| - 1];
    SubjectsDistinct(front);
    var i :| 0 <= i < |front| && front[i].subject == s;
    assert forall j | 0 <= j < |front| :: items[j] == front[j] && front[j].subject in Subjects(front);
    assert items[i].subject == s;
  }

  lemma {:induction false} MessagesAre(order: seq<string>, items: seq<Item>)
    ensures var ms := MessagesFor(order, items);
            |ms| == |order| && forall k | 0 <= k < |ms| :: ms[k] == Message(order[k], For(items, order[k]))
  {
    hide For;
    if order != [] {
      MessagesAre(order[..|order| - 1], items);
    }
  }

  /** A batch is sent as one message a subject, none of them empty, in the order in which the subjects first appear
      in it. */
  lemma OneMessageEach(items: seq<Item>)
    ensures var ms := Grouped(items);
            && (forall k | 0 <= k < |ms| :: ms[k].items != [] && ms[k].items == For(items, ms[k].subject))
            && (forall k, l | 0 <= k < l < |ms| ::
                  ms[k].subject != ms[l].subject && AppearsBefore(items, ms[k].subject, ms[l].subject))
  {
    var order := Subjects(items);
    MessagesAre(order, items);
    SubjectsDistinct(items);
    forall s | s in order ensures For(items, s) != [] {
      SomeFor(items, s);
    }
    var ms := Grouped(items);
    forall k | 0 <= k < |ms| ensures ms[k].items != [] && ms[k].items == For(items, ms[k].subject) {
      assert order[k] in order;
    }
    forall k, l | 0 <= k < l < |ms|
      ensures ms[k].subject != ms[l].subject && AppearsBefore(items, ms[k].subject, ms[l].subject)
    {
      SubjectsInTurn(items, k, l);
      assert order[k] != order[l];
    }
  }

  lemma SomeFor(items: seq<Item>, s: string)
    requires s in Subjects(items)
    ensures For(items, s) != []
  {
    SubjectsDistinct(items);
    var i :| 0 <= i < |items| && items[i].subject == s;
    FilterMembers(items, IsFor(s));
    assert items[i] in items && IsFor(s)(items[i]);
  }

  method GroupBySubject(items: seq<Item>) returns (order: seq<string>, bySubject: map<string, seq<Item>>)
    ensures order == Subjects(items)
    ensures forall s | s in order :: s in bySubject && bySubject[s] == For(items, s)
  {
    order, bySubject := [], map[];
    for i := 0 to |items|
      invariant order == Subjects(items[..i])
      invariant forall s :: s in order <==> s in bySubject
      invariant forall s | s in order :: bySubject[s] == For(items[..i], s)
      invariant forall s | s !in order :: For(items[..i], s) == []
    {
      assert items[..i + 1][..i] == items[..i];
      var it := items[i];
      if it.subject !in bySubject {
        order := order + [it.subject];
        bySubject := bySubject[it.subject := [it]];
      } else {
        bySubject := bySubject[it.subject := bySubject[it.subject] + [it]];
      }
    }
    assert items[..|items|] == items;
  }

  // ---- where every event is ----

  /** A batch: the events added from one position up to another. */
  datatype Batch = Batch(from: nat, upto: nat)

  ghost predicate Holds(b: Batch, i: nat) {
    b.from <= i < b.upto
  }

  /** Batches come off in order, none longer than the maximum, none past the head. */
  ghost predicate InTurn(batches: seq<Batch>, head: nat) {
    && (forall k: nat | k < |batches| ::
          batches[k].from < batches[k].upto <= head && batches[k].upto <= batches[k].from + MAX_ITEMS)
    && (forall k: nat, l: nat | k < l < |batches| :: batches[k].upto <= batches[l].from)
  }

  ghost predicate Taken(batches: seq<Batch>, i: nat) {
    exists k: nat :: k < |batches| && Holds(batches[k], i)
  }

  function Total(batches: seq<Batch>): int {
    if batches == [] then 0
    else Total(batches[..|batches| - 1]) + batches[|batches| - 1].upto - batches[|batches| - 1].from
  }

  /** The events of the batches, in order. */
  function Handed(added: seq<Item>, batches: seq<Batch>): seq<Item>
    requires InTurn(batches, |added|)
  {
    if batches == [] then []
    else
      var (front, last) := (batches[..|batches| - 1], batches[|batches| - 1]);
      Handed(added, front) + added[last.from..last.upto]
  }

  /** Of the events added, those before the head are gone: handed on, or dropped as the oldest when
      more than the maximum came after them. */
  ghost predicate Accounted(added: seq<Item>, head: nat, batches: seq<Batch>, dropped: nat) {
    && head <= |added| && InTurn(batches, head)
    && dropped + Total(batches) == head
    && forall i: nat | i < head && !Taken(batches, i) :: i + MAX_PENDING < |added|
  }

  function Range(from: nat, upto: nat): (r: set<nat>)
    ensures forall i: nat :: i in r <==> from <= i < upto
    decreases upto
  {
    if from >= upto then {} else Range(from, upto - 1) + {upto - 1}
  }

  ghost function TakenOf(batches: seq<Batch>): set<nat> {
    if batches == [] then {}
    else
      var last := batches[|batches| - 1];
      TakenOf(batches[..|batches| - 1]) + Range(last.from, last.upto)
  }

  /** The events before the head that no batch holds. */
  ghost function Lost(batches: seq<Batch>, head: nat): set<nat> {
    Range(0, head) - TakenOf(batches)
  }

  lemma {:induction false} RangeSize(from: nat, upto: nat)
    requires from <= upto
    ensures |Range(from, upto)| == upto - from
    decreases upto
  {
    if from < upto {
      RangeSize(from, upto - 1);
    }
  }

  lemma InTurnFront(batches: seq<Batch>, head: nat)
    requires InTurn(batches, head) && batches != []
    ensures InTurn(batches[..|batches| - 1], batches[|batches| - 1].from)
    ensures batches[|batches| - 1].from < batches[|batches| - 1].upto <= head
  {
  }

  lemma {:induction false} TakenCounts(batches: seq<Batch>, head: nat)
    requires InTurn(batches, head)
    ensures TakenOf(batches) <= Range(0, head) && |TakenOf(batches)| == Total(batches)
    ensures forall i: nat :: i in TakenOf(batches) <==> Taken(batches, i)
  {
    if batches != [] {
      var (front, last) := (batches[..|batches| - 1], batches[|batches| - 1]);
      InTurnFront(batches, head);
      TakenCounts(front, last.from);
      RangeSize(last.from, last.upto);
      assert TakenOf(front) !! Range(last.from, last.upto);
      TakenSplit(batches);
    }
  }

  lemma TakenSplit(batches: seq<Batch>)
    requires batches != []
    ensures forall i: nat ::
              Taken(batches, i) <==> Taken(batches[..|batches| - 1], i) || Holds(batches[|batches| - 1], i)
  {
    var front := batches[..|batches| - 1];
    forall i: nat | Taken(front, i) ensures Taken(batches, i) {
      var k: nat :| k < |front| && Holds(front[k], i);
      assert Holds(batches[k], i);
    }
    assert forall i: nat | Holds(batches[|batches| - 1], i) :: Taken(batches, i);
  }

  ghost predicate InOne(batches: seq<Batch>, i: nat) {
    exists k: nat :: k < |batches| && Holds(batches[k], i) &&
      forall l: nat | l < |batches| && l != k :: !Holds(batches[l], i)
  }

  lemma HeldByOne(batches: seq<Batch>, head: nat, i: nat)
    requires InTurn(batches, head) && Taken(batches, i)
    ensures InOne(batches, i) && i < head
  {
    var k: nat :| k < |batches| && Holds(batches[k], i);
    assert forall l: nat | l < |batches| && l != k :: !Holds(batches[l], i);
  }

  lemma LostCount(batches: seq<Batch>, head: nat)
    requires InTurn(batches, head)
    ensures |Lost(batches, head)| == head - Total(batches)
    ensures forall i: nat :: i in Lost(batches, head) <==> i < head && !Taken(batches, i)
  {
    hide InTurn, Total, Taken, TakenOf;
    TakenCounts(batches, head);
    RangeSize(0, head);
    assert Range(0, head) == Lost(batches, head) + TakenOf(batches);
  }

  /** Every event is in exactly one place: it waits, or one batch holds it, or it was dropped with at least 50000
      after it; the counter of dropped events counts exactly those, and no batch has more than 256. */
  lemma EveryEventOnce(added: seq<Item>, head: nat, batches: seq<Batch>, dropped: nat)
    requires Accounted(added, head, batches, dropped)
    ensures |Lost(batches, head)| == dropped
    ensures forall i: nat | i < |added| ::
              || (i >= head && !Taken(batches, i) && i !in Lost(batches, head))
              || (i < head && i !in Lost(batches, head) && InOne(batches, i))
              || (i < head && i in Lost(batches, head) && !Taken(batches, i) && i + 50000 < |added|)
    ensures forall k: nat | k < |batches| :: batches[k].from < batches[k].upto <= batches[k].from + 256
  {
    hide Total, Taken, Lost, InOne;
    LostCount(batches, head);
    forall i: nat | Taken(batches, i) {
      HeldByOne(batches, head, i);
    }
  }

  // ---- each subject's order over the whole run ----

  /** The positions at which a subject's events were handed on, in order. */
  function Positions(added: seq<Item>, subject: string, from: nat, upto: nat): seq<nat>
    requires from <= upto <= |added|
    decreases upto
  {
    if from == upto then []
    else Positions(added, subject, from, upto - 1) + if added[upto - 1].subject == subject then [upto - 1] else []
  }

  ghost predicate Picks(added: seq<Item>, at: seq<nat>, picked: seq<Item>, subject: string, from: nat, upto: nat) {
    && |at| == |picked|
    && (forall j | 0 <= j < |at| ::
          && from <= at[j] < upto && at[j] < |added|
          && added[at[j]] == picked[j] && picked[j].subject == subject)
    && (forall j, k | 0 <= j < k < |at| :: at[j] < at[k])
  }

  lemma {:induction false} SlicePicks(added: seq<Item>, subject: string, from: nat, upto: nat)
    requires from <= upto <= |added|
    ensures var at := Positions(added, subject, from, upto);
            Picks(added, at, For(added[from..upto], subject), subject, from, upto)
    ensures forall i: nat | from <= i < upto && added[i].subject == subject ::
              i in Positions(added, subject, from, upto)
    decreases upto
  {
    if from < upto {
      SlicePicks(added, subject, from, upto - 1);
      assert added[from..upto][..upto - 1 - from] == added[from..upto - 1];
    }
  }

  lemma PicksConcat(added: seq<Item>, a: seq<nat>, p: seq<Item>, b: seq<nat>, q: seq<Item>, subject: string,
                    from: nat, mid: nat, mid': nat, upto: nat)
    requires Picks(added, a, p, subject, from, mid) && Picks(added, b, q, subject, mid', upto)
    requires from <= mid <= mid' <= upto
    ensures Picks(added, a + b, p + q, subject, from, upto)
  {
  }

  function End(batches: seq<Batch>): nat {
    if batches == [] then 0 else batches[|batches| - 1].upto
  }

  /** What was handed on for a subject is exactly its events that some batch holds, in the order they
      were added, each once. */
  lemma {:induction false} HandedInOrder(added: seq<Item>, batches: seq<Batch>, subject: string) returns (at: seq<nat>)
    requires InTurn(batches, |added|)
    ensures End(batches) <= |added|
    ensures Picks(added, at, For(Handed(added, batches), subject), subject, 0, End(batches))
    ensures forall i: nat | i < |added| && Taken(batches, i) && added[i].subject == subject :: i in at
    ensures forall i: nat | i in at :: Taken(batches, i)
    decreases |batches|
  {
    hide Picks, Taken, Positions, For;
    if batches == [] {
      at := [];
      NothingPicked(added, subject);
    } else {
      var (front, last) := (batches[..|batches| - 1], batches[|batches| - 1]);
      InTurnFront(batches, |added|);
      assert InTurn(front, |added|);
      at := HandedInOrder(added, front, subject);
      var more := Positions(added, subject, last.from, last.upto);
      SlicePicks(added, subject, last.from, last.upto);
      ForConcat(Handed(added, front), added[last.from..last.upto], subject);
      PicksConcat(added, at, For(Handed(added, front), subject), more, For(added[last.from..last.upto], subject),
                  subject, 0, End(front), last.from, last.upto);
      PositionsWithin(added, subject, last.from, last.upto);
      TakenSplit(batches);
      at := at + more;
    }
  }

  lemma NothingPicked(added: seq<Item>, subject: string)
    ensures Picks(added, [], For([], subject), subject, 0, 0)
    ensures forall i: nat :: !Taken([], i)
  {
  }

  lemma ForConcat(a: seq<Item>, b: seq<Item>, subject: string)
    ensures For(a + b, subject) == For(a, subject) + For(b, subject)
  {
    FilterConcat(a, b, IsFor(subject));
  }

  lemma {:induction false} PositionsWithin(added: seq<Item>, subject: string, from: nat, upto: nat)
    requires from <= upto <= |added|
    ensures forall i: nat | i in Positions(added, subject, from, upto) :: from <= i < upto
    decreases upto
  {
    if from < upto {
      PositionsWithin(added, subject, from, upto - 1);
    }
  }

  // ---- the sink ----

  /** Each event takes its own bytes and two more. */
  lemma {:induction false} SizeOfAppend(items: seq<Item>, it: Item)
    ensures SizeOf([]) == 0 && SizeOf(items + [it]) == SizeOf(items) + |it.body| + 2
  {
    assert (items + [it])[..|items|] == items;
  }

  lemma OneMoreAdded(added: seq<Item>, it: Item, head: nat, cut: nat, batches: seq<Batch>, dropped: nat)
    requires Accounted(added, head, batches, dropped)
    requires cut > 0 ==> head + cut + MAX_PENDING == |added| + 1
    requires head + cut <= |added| + 1
    ensures Accounted(added + [it], head + cut, batches, dropped + cut)
  {
    hide Total, Taken;
  }

  lemma OneMoreBatch(added: seq<Item>, head: nat, n: nat, batches: seq<Batch>, dropped: nat)
    requires Accounted(added, head, batches, dropped) && head + n <= |added| && 0 < n <= MAX_ITEMS
    ensures Accounted(added, head + n, batches + [Batch(head, head + n)], dropped)
  {
    var more := batches + [Batch(head, head + n)];
    assert more[..|batches|] == batches;
    TakenSplit(more);
    hide Taken;
  }

  lemma {:induction false} HandedStays(added: seq<Item>, batches: seq<Batch>, it: Item)
    requires InTurn(batches, |added|)
    ensures Handed(added + [it], batches) == Handed(added, batches)
  {
    if batches != [] {
      var (front, last) := (batches[..|batches| - 1], batches[|batches| - 1]);
      HandedStays(added, front, it);
      assert (added + [it])[last.from..last.upto] == added[last.from..last.upto];
    }
  }

  /** To each subject, what was sent and what is on its way make up what was handed on. */
  ghost predicate SentInOrder(added: seq<Item>, batches: seq<Batch>, leaving: seq<Item>, sent: seq<Message>) {
    && InTurn(batches, |added|)
    && forall s :: SentTo(sent, s) + For(leaving, s) == For(Handed(added, batches), s)
  }

  lemma SentAfterAdd(added: seq<Item>, batches: seq<Batch>, leaving: seq<Item>, sent: seq<Message>, it: Item)
    requires SentInOrder(added, batches, leaving, sent)
    ensures SentInOrder(added + [it], batches, leaving, sent)
  {
    hide For, SentTo;
    HandedStays(added, batches, it);
  }

  lemma InTurnMore(batches: seq<Batch>, head: nat, n: nat)
    requires InTurn(batches, head) && 0 < n <= MAX_ITEMS
    ensures InTurn(batches + [Batch(head, head + n)], head + n)
  {
  }

  lemma InTurnLater(batches: seq<Batch>, head: nat, later: nat)
    requires InTurn(batches, head) && head <= later
    ensures InTurn(batches, later)
  {
  }

  lemma HandedMore(added: seq<Item>, batches: seq<Batch>, last: Batch)
    requires InTurn(batches, |added|) && InTurn(batches + [last], |added|) && last.from <= last.upto <= |added|
    ensures Handed(added, batches + [last]) == Handed(added, batches) + added[last.from..last.upto]
  {
    assert (batches + [last])[..|batches|] == batches;
  }

  lemma SentAfterTake(added: seq<Item>, head: nat, n: nat, batches: seq<Batch>, sent: seq<Message>)
    requires SentInOrder(added, batches, [], sent) && InTurn(batches, head) && head + n <= |added| && 0 < n <= MAX_ITEMS
    ensures SentInOrder(added, batches + [Batch(head, head + n)], added[head..head + n], sent)
  {
    hide For, SentTo, Handed, InTurn;
    var last := Batch(head, head + n);
    InTurnMore(batches, head, n);
    InTurnLater(batches + [last], head + n, |added|);
    HandedMore(added, batches, last);
    ForNothing();
    forall s ensures SentTo(sent, s) + For(added[head..head + n], s) == For(Handed(added, batches + [last]), s) {
      ForConcat(Handed(added, batches), added[head..head + n], s);
    }
  }

  lemma SentAfterPublish(added: seq<Item>, batches: seq<Batch>, leaving: seq<Item>, sent: seq<Message>)
    requires SentInOrder(added, batches, leaving, sent)
    ensures SentInOrder(added, batches, [], sent + Grouped(leaving))
  {
    ForNothing();
    hide For, SentTo, Handed, Grouped;
    forall s ensures SentTo(sent + Grouped(leaving), s) + For([], s) == For(Handed(added, batches), s) {
      SentToConcat(sent, Grouped(leaving), s);
      GroupedSends(leaving, s);
    }
  }

  /** The buffer is a window at the front of its backing array; dropping and taking shift the rest down
      in place. Only the loop takes and publishes, so at most one batch is on its way out. */
  class Sink {
    var pending: array<Item>
    var len: nat
    var size: nat
    var dropped: nat

    /** Every event ever added, the batches taken, the batch on its way out, and what was sent. */
    ghost var added: seq<Item>
    ghost var batches: seq<Batch>
    ghost var leaving: seq<Item>
    ghost var sent: seq<Message>

    ghost predicate Valid()
      reads this, pending
    {
      && len <= pending.Length && len <= MAX_PENDING && len <= |added|
      && Contents() == added[|added| - len..]
      && size == SizeOf(Contents())
      && Accounted(added, |added| - len, batches, dropped)
      && SentInOrder(added, batches, leaving, sent)
    }

    ghost function Contents(): seq<Item>
      reads this, pending
      requires len <= pending.Length
    {
      pending[..len]
    }

    constructor ()
      ensures Valid() && fresh(pending) && added == [] && batches == [] && leaving == [] && sent == [] && dropped == 0
    {
      pending := new Item[0];
      len, size, dropped := 0, 0, 0;
      added, batches, leaving, sent := [], [], [], [];
    }

    /** Shifts the window's elements down over its first cut. */
    method Shift(cut: nat)
      requires cut <= len <= pending.Length
      modifies this`len, pending
      ensures len == old(len) - cut && Contents() == old(Contents())[cut..]
    {
      ghost var was := Contents();
      var (b, n) := (pending, len);
      var i := cut;
      while i < n
        invariant cut <= i <= n
        invariant b[..i - cut] == was[cut..i]
        invariant forall j | i <= j < n :: b[j] == was[j]
        modifies b
      {
        b[i - cut] := b[i];
        i := i + 1;
      }
      len := n - cut;
    }

    method Measure() returns (n: nat)
      requires len <= pending.Length
      ensures n == SizeOf(Contents())
    {
      n := 0;
      for i := 0 to len
        invariant n == SizeOf(pending[..i])
      {
        assert pending[..i + 1][..i] == pending[..i];
        n := n + |pending[i].body| + 2;
      }
    }

    method Append(it: Item)
      requires len <= pending.Length
      modifies this`pending, this`len, pending
      ensures len == old(len) + 1 <= pending.Length && Contents() == old(Contents()) + [it]
      ensures pending == old(pending) || fresh(pending)
    {
      if len == pending.Length {
        var was := pending[..len];
        var bigger := new Item[2 * len + 1](i => if 0 <= i < |was| then was[i] else it);
        assert bigger[..len] == was;
        pending := bigger;
      }
      pending[len] := it;
      len := len + 1;
    }

    /** The event joins the end; past the maximum the oldest goes. Nothing else moves, and nothing on
        its way out is touched. */
    method Add(it: Item) returns (full: bool)
      requires Valid()
      modifies this`pending, this`len, this`size, this`dropped, this`added, pending
      ensures Valid() && (pending == old(pending) || fresh(pending))
      ensures added == old(added) + [it]
      ensures Contents() == Newest(old(Contents()) + [it])
      ensures dropped == old(dropped) + if old(len) == MAX_PENDING then 1 else 0
      ensures full <==> |Contents()| >= 256 || SizeOf(Contents()) >= 524288
    {
      hide Accounted, SizeOf, SentInOrder, Newest;
      ghost var head, lost, was := |added| - len, dropped, Contents();
      SizeOfAppend(was, it);
      Append(it);
      size := size + |it.body| + 2;
      var cut := Trim();
      NewestAdded(added, it, head, was);
      OneMoreAdded(added, it, head, cut, batches, lost);
      SentAfterAdd(added, batches, leaving, sent, it);
      added := added + [it];
      full := len >= MAX_ITEMS || size >= MAX_SIZE;
      assert |added| - len == head + cut;
    }

    /** Drops the oldest, past the maximum. */
    method Trim() returns (cut: nat)
      requires len <= pending.Length && size == SizeOf(Contents())
      modifies this`len, this`size, this`dropped, pending
      ensures cut == (if old(len) > MAX_PENDING then old(len) - MAX_PENDING else 0) <= old(len)
      ensures len == old(len) - cut <= pending.Length && Contents() == Newest(old(Contents()))
      ensures size == SizeOf(Contents()) && dropped == old(dropped) + cut
    {
      hide SizeOf;
      cut := 0;
      if len > MAX_PENDING {
        cut := len - MAX_PENDING;
        dropped := dropped + cut;
        Shift(cut);
        size := Measure();
      }
    }

    /** The loop's critical section: the oldest, as many as one batch may have. */
    method Take() returns (take: seq<Item>)
      requires Valid() && leaving == [] && len > 0
      modifies this`len, this`size, this`batches, this`leaving, pending
      ensures Valid() && leaving == take
      ensures take == old(Contents())[..if old(len) > MAX_ITEMS then MAX_ITEMS else old(len)]
      ensures Contents() == old(Contents())[|take|..]
    {
      hide Accounted, SizeOf, SentInOrder, InTurn;
      var n := if len > MAX_ITEMS then MAX_ITEMS else len;
      take := pending[..n];
      ghost var head := |added| - len;
      Shift(n);
      size := Measure();
      AccountedTurn(added, head, batches, dropped);
      OneMoreBatch(added, head, n, batches, dropped);
      SentAfterTake(added, head, n, batches, sent);
      assert take == added[head..head + n];
      batches := batches + [Batch(head, head + n)];
      leaving := take;
    }

    /** Publishing needs no lock: it sends one message per subject. */
    method Publish(items: seq<Item>)
      requires Valid() && items == leaving && items != []
      modifies this`leaving, this`sent
      ensures Valid() && leaving == [] && sent == old(sent) + Grouped(items)
    {
      hide Accounted, SizeOf, SentInOrder, Grouped;
      SentAfterPublish(added, batches, items, sent);
      SendGrouped(items);
      leaving := [];
    }

    method SendGrouped(items: seq<Item>)
      requires items != []
      modifies this`sent
      ensures sent == old(sent) + Grouped(items)
    {
      hide Grouped, Filter, Subjects, For;
      if |items| == 1 {
        OneMessage(items);
        Send(items[0].subject, items[..1]);
      } else {
        var order, bySubject := GroupBySubject(items);
        for i := 0 to |order|
          invariant sent == old(sent) + MessagesFor(order[..i], items)
        {
          assert order[..i + 1][..i] == order[..i];
          Send(order[i], bySubject[order[i]]);
        }
        assert order[..|order|] == order;
        GroupedIs(items);
      }
    }

    method Send(subject: string, items: seq<Item>)
      modifies this`sent
      ensures sent == old(sent) + [Message(subject, items)]
    {
      sent := sent + [Message(subject, items)];
    }

    /** Takes and publishes until nothing waits. */
    method Flush()
      requires Valid() && leaving == []
      modifies this`len, this`size, this`batches, this`leaving, this`sent, pending
      ensures Valid() && leaving == [] && len == 0
    {
      hide Accounted, SizeOf, SentInOrder;
      while len > 0
        invariant Valid() && leaving == [] && pending == old(pending) && added == old(added) && dropped == old(dropped)
        decreases len
      {
        var take := Take();
        Publish(take);
      }
    }
  }

  lemma NewestAdded(added: seq<Item>, it: Item, head: nat, was: seq<Item>)
    requires head <= |added| && was == added[head..]
    ensures var kept := Newest(was + [it]);
            |kept| <= |added| + 1 && kept == (added + [it])[|added| + 1 - |kept|..]
  {
  }

  lemma AccountedTurn(added: seq<Item>, head: nat, batches: seq<Batch>, dropped: nat)
    requires Accounted(added, head, batches, dropped)
    ensures head <= |added| && InTurn(batches, head)
  {
  }

  lemma ForNothing()
    ensures forall s :: For([], s) == []
  {
  }

  lemma OneMessage(items: seq<Item>)
    requires |items| == 1
    ensures Grouped(items) == [Message(items[0].subject, items[..1])]
  {
    assert items[..|items| - 1] == [];
    var subject := items[0].subject;
    assert Subjects(items) == [] + [subject] == [subject];
    assert For(items, subject) == [] + [items[0]] == items[..1];
    assert [subject][..0] == [];
    assert MessagesFor([subject], items) == [] + [Message(subject, For(items, subject))];
  }

  lemma GroupedIs(items: seq<Item>)
    ensures Grouped(items) == MessagesFor(Subjects(items), items)
  {
  }
}
