/**
 The slot of `SharedSlot` with a reader that can be overtaken between any two of its accesses: it sums the payload
 byte by byte, reads the CRC at any moment meanwhile, reads the number twice more, and copies the payload byte by
 byte, all while the writer goes on.
 */
module SlotRace {
  import opened Crc32
  import opened Options
  import opened SharedSlot
  import opened Protocol

  /** Where the reader is: between checks; summing the payload, with the CRC field if it has read that; about to
      compare the number; about to remember it; copying the payload, with a mark for every byte still to be copied. */
  datatype Reader =
    | Waiting
    | Summing(bytes: Payload, crc: Option<Word>)
    | Comparing
    | Remembering
    | Taking(number: nat, left: seq<bool>, taken: Payload)

  /** The writer and its slot, and this reader with its last number and its history. */
  datatype Race = Race(w: State, reader: Reader, last: nat, delivered: seq<Delivery>)

  datatype Turn =
    | Write(step: Step)
    | Look | SumByte | ReadCrc | Judge | Compare | Remember | TakeByte(i: nat) | Deliver

  function Start(n: nat): Race { Race(Init(n), Waiting, 0, []) }

  /** The check of the slot, up to the decision. */
  function Checked(r: Race, turn: Turn): Reader {
    match (turn, r.reader)
    case (Look, Waiting) => if r.w.slot.number == 0 then Waiting else Summing([], None)
    case (SumByte, Summing(bytes, crc)) =>
      if |bytes| < |r.w.slot.payload| then Summing(bytes + [r.w.slot.payload[|bytes|]], crc) else r.reader
    case (ReadCrc, Summing(bytes, None)) => Summing(bytes, Some(r.w.slot.crc))
    case (Judge, Summing(bytes, Some(crc))) =>
      if |bytes| < |r.w.slot.payload| then r.reader else if crc == Crc(bytes) then Comparing else Waiting
    case (Compare, Comparing) => if r.w.slot.number <= r.last then Waiting else Remembering
    case _ => r.reader
  }

  /** A turn that its side cannot take leaves everything alone. */
  function Next(r: Race, turn: Turn): Race {
    match turn
    case Write(step) => r.(w := Apply(r.w, step))
    case Remember =>
      if r.reader.Remembering?
      then r.(last := r.w.slot.number,
              reader := Taking(r.w.slot.number, Marks(|r.w.slot.payload|), Zeros(|r.w.slot.payload|)))
      else r
    case TakeByte(i) =>
      if r.reader.Taking? && i < |r.reader.left| == |r.reader.taken| == |r.w.slot.payload| && r.reader.left[i]
      then r.(reader := Taking(r.reader.number, r.reader.left[i := false],
                               r.reader.taken[i := r.w.slot.payload[i]]))
      else r
    case Deliver =>
      if r.reader.Taking? && true !in r.reader.left
      then r.(delivered := r.delivered + [Delivery(r.reader.number, r.reader.taken)], reader := Waiting)
      else r
    case _ => r.(reader := Checked(r, turn))
  }

  function Exec(r: Race, turns: seq<Turn>): Race
    decreases |turns|
  {
    if turns == [] then r else Exec(Next(r, turns[0]), turns[1..])
  }

  // ---------- What every interleaving keeps ----------

  /** The byte at this place is that of the numbered payload or of a later one. */
  ghost predicate Recent(sent: seq<Payload>, number: nat, i: nat, b: Byte) {
    exists j :: 0 <= j < |sent| && number <= j + 1 && i < |sent[j]| && sent[j][i] == b
  }

  ghost predicate AllRecent(sent: seq<Payload>, n: nat, d: Delivery) {
    |d.payload| == n && forall i :: 0 <= i < n ==> Recent(sent, d.number, i, d.payload[i])
  }

  ghost predicate ReaderInv(n: nat, r: Race) {
    match r.reader
    case Remembering => r.last < r.w.slot.number
    case Taking(number, left, taken) =>
      && number == r.last && |left| == |taken| == n
      && (forall i :: 0 <= i < n && !left[i] ==> Recent(r.w.sent, number, i, taken[i]))
    case _ => true
  }

  ghost predicate RaceInv(n: nat, r: Race) {
    && SlotInv(n, r.w) && ReaderInv(n, r) && Increasing(r.delivered)
    && r.last <= r.w.slot.number
    && (var before := if r.delivered == [] then 0 else r.delivered[|r.delivered| - 1].number;
        if r.reader.Taking? then before < r.last else before == r.last)
    && (forall k :: 0 <= k < |r.delivered| ==> AllRecent(r.w.sent, n, r.delivered[k]))
  }

  lemma WriterGoesOn(n: nat, s: State, step: Step)
    requires SlotInv(n, s)
    ensures var t := Apply(s, step); s.sent <= t.sent && s.slot.number <= t.slot.number && SlotInv(n, t)
  {
    SlotStep(n, s, step);
  }

  lemma StaysRecent(sent: seq<Payload>, more: seq<Payload>, number: nat, i: nat, b: Byte)
    requires sent <= more && Recent(sent, number, i, b)
    ensures Recent(more, number, i, b)
  {
    var j :| 0 <= j < |sent| && number <= j + 1 && i < |sent[j]| && sent[j][i] == b;
    assert more[j] == sent[j];
  }

  lemma WriteKeepsInv(n: nat, r: Race, step: Step)
    requires RaceInv(n, r)
    ensures RaceInv(n, Next(r, Write(step)))
  {
    var t := Next(r, Write(step));
    WriterGoesOn(n, r.w, step);
    if r.reader.Taking? {
      forall i | 0 <= i < n && !r.reader.left[i] ensures Recent(t.w.sent, r.reader.number, i, r.reader.taken[i]) {
        StaysRecent(r.w.sent, t.w.sent, r.reader.number, i, r.reader.taken[i]);
      }
    }
    forall k | 0 <= k < |r.delivered| ensures AllRecent(t.w.sent, n, r.delivered[k]) {
      forall i | 0 <= i < n ensures Recent(t.w.sent, r.delivered[k].number, i, r.delivered[k].payload[i]) {
        assert AllRecent(r.w.sent, n, r.delivered[k]);
        StaysRecent(r.w.sent, t.w.sent, r.delivered[k].number, i, r.delivered[k].payload[i]);
      }
    }
  }

  /** Whatever the writer is at, what the slot shows is recent. */
  lemma SlotIsRecent(n: nat, s: State, number: nat, i: nat)
    requires SlotInv(n, s) && 0 < number <= s.slot.number && i < n
    ensures Recent(s.sent, number, i, s.slot.payload[i])
  {
    var m := |s.sent| - 1;
    if s.slot.payload[i] != s.sent[m][i] {
      assert s.slot.payload[i] == s.sent[m - 1][i];
    }
  }

  lemma TakeKeepsInv(n: nat, r: Race, i: nat)
    requires RaceInv(n, r)
    ensures RaceInv(n, Next(r, TakeByte(i)))
  {
    if r.reader.Taking? && i < n && r.reader.left[i] {
      SlotIsRecent(n, r.w, r.reader.number, i);
    }
  }

  lemma DeliverKeepsInv(n: nat, r: Race)
    requires RaceInv(n, r)
    ensures RaceInv(n, Next(r, Deliver))
  {
    if r.reader.Taking? && true !in r.reader.left {
      var d := Delivery(r.reader.number, r.reader.taken);
      assert forall i :: 0 <= i < n ==> !r.reader.left[i];
      assert AllRecent(r.w.sent, n, d);
    }
  }

  lemma TurnKeepsInv(n: nat, r: Race, turn: Turn)
    requires RaceInv(n, r)
    ensures RaceInv(n, Next(r, turn))
  {
    match turn
    case Write(step) => WriteKeepsInv(n, r, step);
    case TakeByte(i) => TakeKeepsInv(n, r, i);
    case Deliver => DeliverKeepsInv(n, r);
    case _ =>
  }

  lemma {:induction false} AlwaysInv(n: nat, r: Race, turns: seq<Turn>)
    requires RaceInv(n, r)
    ensures RaceInv(n, Exec(r, turns))
    decreases |turns|
  {
    if turns != [] {
      TurnKeepsInv(n, r, turns[0]);
      AlwaysInv(n, Next(r, turns[0]), turns[1..]);
    }
  }

  /** However the accesses of the two sides fall, the accepted numbers strictly increase. */
  lemma NumbersIncreaseInRaces(n: nat, turns: seq<Turn>, j: nat, k: nat)
    requires j < k < |Exec(Start(n), turns).delivered|
    ensures var d := Exec(Start(n), turns).delivered; 0 < d[j].number < d[k].number
  {
    AlwaysInv(n, Start(n), turns);
    IncreasingPair(Exec(Start(n), turns).delivered, j, k);
  }

  /** And every byte delivered is of the payload of its number, or of a later one: nothing is ever older than its
      number says. */
  lemma NothingIsStale(n: nat, turns: seq<Turn>, k: nat)
    requires k < |Exec(Start(n), turns).delivered|
    ensures AllRecent(Exec(Start(n), turns).w.sent, n, Exec(Start(n), turns).delivered[k])
  {
    AlwaysInv(n, Start(n), turns);
  }

  lemma {:induction false} NumberInRange(n: nat, r: Race, k: nat)
    requires RaceInv(n, r) && k < |r.delivered|
    ensures 0 < r.delivered[k].number <= r.w.slot.number <= |r.w.sent|
  {
    var m := |r.delivered| - 1;
    if k < m {
      IncreasingPair(r.delivered, k, m);
    } else if k > 0 {
      IncreasingPair(r.delivered, 0, k);
    }
  }

  // ---------- When deliveries are whole ----------

  /** The delivery is the payload of its number, or a later one. */
  ghost predicate Whole(sent: seq<Payload>, d: Delivery) {
    exists j :: 0 <= j < |sent| && d.number <= j + 1 && sent[j] == d.payload
  }

  ghost predicate AllWhole(r: Race) {
    forall k :: 0 <= k < |r.delivered| ==> Whole(r.w.sent, r.delivered[k])
  }

  /** The payloads differ in one byte at most. */
  ghost predicate OneByteApart(p: Payload, q: Payload)
    requires |p| == |q|
  {
    forall i, j :: 0 <= i < |p| && 0 <= j < |p| && p[i] != q[i] && p[j] != q[j] ==> i == j
  }

  ghost predicate AllOneByteApart(n: nat, sent: seq<Payload>) {
    && (forall k :: 0 <= k < |sent| ==> |sent[k]| == n)
    && forall j, k :: 0 <= j < |sent| && 0 <= k < |sent| ==> OneByteApart(sent[j], sent[k])
  }

  lemma RecentIsWhole(n: nat, sent: seq<Payload>, d: Delivery)
    requires AllOneByteApart(n, sent) && AllRecent(sent, n, d) && 0 < d.number <= |sent|
    ensures Whole(sent, d)
  {
    var p := sent[d.number - 1];
    if i :| 0 <= i < n && d.payload[i] != p[i] {
      assert Recent(sent, d.number, i, d.payload[i]);
      var j :| 0 <= j < |sent| && d.number <= j + 1 && i < |sent[j]| && sent[j][i] == d.payload[i];
      assert OneByteApart(sent[j], p);
      forall k | 0 <= k < n ensures d.payload[k] == sent[j][k] {
        assert Recent(sent, d.number, k, d.payload[k]);
        var j' :| 0 <= j' < |sent| && d.number <= j' + 1 && k < |sent[j']| && sent[j'][k] == d.payload[k];
        assert OneByteApart(sent[j'], p) && OneByteApart(sent[j], sent[j']);
      }
      assert d.payload == sent[j];
    } else {
      assert d.payload == p;
    }
  }

  lemma OneByteArrivesWhole(n: nat, turns: seq<Turn>)
    requires AllOneByteApart(n, Exec(Start(n), turns).w.sent)
    ensures AllWhole(Exec(Start(n), turns))
  {
    var r := Exec(Start(n), turns);
    AlwaysInv(n, Start(n), turns);
    forall k | 0 <= k < |r.delivered| ensures Whole(r.w.sent, r.delivered[k]) {
      NumberInRange(n, r, k);
      RecentIsWhole(n, r.w.sent, r.delivered[k]);
    }
  }

  // ---------- Undisturbed stretches of a run ----------

  lemma {:induction false} ExecAll(r: Race, a: seq<Turn>, b: seq<Turn>)
    ensures Exec(r, a + b) == Exec(Exec(r, a), b)
    decreases |a|
  {
    if a == [] {
      assert a + b == b;
    } else {
      assert (a + b)[1..] == a[1..] + b;
      ExecAll(Next(r, a[0]), a[1..], b);
    }
  }

  lemma ExecOne(r: Race, turn: Turn)
    ensures Exec(r, [turn]) == Next(r, turn)
  {
    assert [turn][1..] == [];
  }

  function Writes(steps: seq<Step>): seq<Turn> {
    if steps == [] then [] else [Write(steps[0])] + Writes(steps[1..])
  }

  lemma {:induction false} WritesExec(r: Race, steps: seq<Step>)
    ensures Exec(r, Writes(steps)) == r.(w := SharedSlot.Exec(r.w, steps))
    decreases |steps|
  {
    if steps != [] {
      assert Writes(steps)[1..] == Writes(steps[1..]);
      WritesExec(Next(r, Write(steps[0])), steps[1..]);
    }
  }

  function Sums(k: nat): seq<Turn> {
    if k == 0 then [] else [SumByte] + Sums(k - 1)
  }

  lemma {:induction false} SumsExec(r: Race, k: nat)
    requires k <= |r.w.slot.payload| && r.reader == Summing(r.w.slot.payload[..|r.w.slot.payload| - k], None)
    ensures Exec(r, Sums(k)) == r.(reader := Summing(r.w.slot.payload, None))
    decreases k
  {
    var p := r.w.slot.payload;
    if k == 0 {
      assert p[..|p|] == p;
    } else {
      assert Sums(k)[1..] == Sums(k - 1);
      assert p[..|p| - k] + [p[|p| - k]] == p[..|p| - (k - 1)];
      SumsExec(Next(r, SumByte), k - 1);
    }
  }

  const DECIDES := [ReadCrc, Judge, Compare, Remember]

  function Checks(n: nat): seq<Turn> { [Look] + Sums(n) + DECIDES }

  lemma DecidesExec(r: Race)
    requires r.reader == Summing(r.w.slot.payload, None) && Verified(r.w.slot)
    ensures (Exec(r, DECIDES) == if r.w.slot.number <= r.last then r.(reader := Waiting)
      else r.(last := r.w.slot.number,
              reader := Taking(r.w.slot.number, Marks(|r.w.slot.payload|), Zeros(|r.w.slot.payload|))))
  {
    hide Exec;
    var read := r.(reader := Summing(r.w.slot.payload, Some(r.w.slot.crc)));
    var compared := Next(r.(reader := Comparing), Compare);
    assert DECIDES == [ReadCrc] + [Judge] + [Compare] + [Remember];
    ExecAll(r, [ReadCrc] + [Judge] + [Compare], [Remember]);
    ExecAll(r, [ReadCrc] + [Judge], [Compare]);
    ExecAll(r, [ReadCrc], [Judge]);
    ExecOne(r, ReadCrc);
    ExecOne(read, Judge);
    ExecOne(r.(reader := Comparing), Compare);
    ExecOne(compared, Remember);
  }

  /** An undisturbed check of a slot that verifies lets a new number through and no other. */
  lemma ChecksExec(r: Race, n: nat)
    requires r.reader.Waiting? && Verified(r.w.slot) && n == |r.w.slot.payload|
    ensures (Exec(r, Checks(n)) == if r.w.slot.number <= r.last then r
      else r.(last := r.w.slot.number, reader := Taking(r.w.slot.number, Marks(n), Zeros(n))))
  {
    hide Exec, Sums;
    var p := r.w.slot.payload;
    ExecAll(r, [Look] + Sums(n), DECIDES);
    ExecAll(r, [Look], Sums(n));
    var looked := Next(r, Look);
    ExecOne(r, Look);
    assert p[..0] == [];
    SumsExec(looked, n);
    DecidesExec(r.(reader := Summing(p, None)));
  }

  function Takes(n: nat, lo: nat): seq<Turn>
    requires lo <= n
    decreases n - lo
  {
    if lo == n then [] else [TakeByte(lo)] + Takes(n, lo + 1)
  }

  /** Undisturbed, the reader copies the bytes still to be copied from the slot as it is. */
  lemma {:induction false} TakesExec(r: Race, n: nat, lo: nat)
    requires r.reader.Taking? && lo <= n == |r.w.slot.payload| == |r.reader.left| == |r.reader.taken|
    ensures (var t := Exec(r, Takes(n, lo));
      && t.reader.Taking? && t == r.(reader := t.reader) && t.reader.number == r.reader.number
      && |t.reader.left| == |t.reader.taken| == n
      && (forall i :: 0 <= i < lo ==> t.reader.left[i] == r.reader.left[i] && t.reader.taken[i] == r.reader.taken[i])
      && (forall i :: lo <= i < n ==> !t.reader.left[i])
      && (forall i :: lo <= i < n ==>
           t.reader.taken[i] == if r.reader.left[i] then r.w.slot.payload[i] else r.reader.taken[i]))
    decreases n - lo
  {
    if lo < n {
      assert Takes(n, lo)[1..] == Takes(n, lo + 1);
      TakesExec(Next(r, TakeByte(lo)), n, lo + 1);
    }
  }

  lemma {:induction false} NothingToTake(r: Race, n: nat, lo: nat)
    requires r.reader.Waiting? && lo <= n
    ensures Exec(r, Takes(n, lo)) == r
    decreases n - lo
  {
    if lo < n {
      assert Takes(n, lo)[1..] == Takes(n, lo + 1);
      NothingToTake(r, n, lo + 1);
    }
  }

  // ---------- One byte is the exact limit ----------

  /** The first payload is published and checked, and one byte of it is taken. */
  lemma FirstHalf(n: nat, p: Payload, i: nat) returns (a: Race)
    requires |p| == n && i < n
    ensures a == Exec(Start(n), Writes(Publishing(n, p)) + Checks(n) + [TakeByte(i)])
    ensures a.w == Init(n).(slot := Slot(1, p, Crc(p)), sent := [p]) && SlotInv(n, a.w)
    ensures a.last == 1 && a.delivered == []
    ensures a.reader == Taking(1, Marks(n)[i := false], Zeros(n)[i := p[i]])
  {
    hide Exec, SharedSlot.Exec, Writes, Publishing, Checks;
    var r := Start(n).(w := Init(n).(slot := Slot(1, p, Crc(p)), sent := [p]));
    SoloPublish(n, Init(n), p);
    WritesExec(Start(n), Publishing(n, p));
    assert [] + [p] == [p];
    ExecAll(Start(n), Writes(Publishing(n, p)) + Checks(n), [TakeByte(i)]);
    ExecAll(Start(n), Writes(Publishing(n, p)), Checks(n));
    ChecksExec(r, n);
    var c := Exec(r, Checks(n));
    ExecOne(c, TakeByte(i));
    a := Next(c, TakeByte(i));
  }

  /** The second is published over it, and all other bytes are taken from that. */
  lemma SecondHalf(n: nat, a: Race, p: Payload, q: Payload, i: nat) returns (c: Race)
    requires |p| == |q| == n && i < n && SlotInv(n, a.w)
    requires a.w == Init(n).(slot := Slot(1, p, Crc(p)), sent := [p])
    requires a.reader == Taking(1, Marks(n)[i := false], Zeros(n)[i := p[i]]) && a.delivered == []
    ensures c == Exec(a, Writes(Publishing(n, q)) + Takes(n, 0) + [Deliver])
    ensures c.w.sent == [p, q] && c.delivered == [Delivery(1, q[i := p[i]])]
  {
    hide Exec, SharedSlot.Exec, Writes, Publishing, Takes;
    var b := a.(w := a.w.(slot := Slot(2, q, Crc(q)), sent := [p, q]));
    SoloPublish(n, a.w, q);
    WritesExec(a, Publishing(n, q));
    assert [p] + [q] == [p, q];
    ExecAll(a, Writes(Publishing(n, q)) + Takes(n, 0), [Deliver]);
    ExecAll(a, Writes(Publishing(n, q)), Takes(n, 0));
    TakesExec(b, n, 0);
    var t := Exec(b, Takes(n, 0));
    assert t.reader.taken == q[i := p[i]];
    assert true !in t.reader.left;
    ExecOne(t, Deliver);
    c := Next(t, Deliver);
  }

  /** Two payloads that differ in two bytes: the reader checks the first and takes one of these bytes, the writer
      publishes the second, the reader takes the rest. */
  lemma MixedDelivery(n: nat, p: Payload, q: Payload, i: nat, j: nat) returns (turns: seq<Turn>)
    requires |p| == |q| == n && i < n && j < n && i != j && p[i] != q[i] && p[j] != q[j]
    ensures (var r := Exec(Start(n), turns);
      r.w.sent == [p, q] && r.delivered == [Delivery(1, q[i := p[i]])] && !AllWhole(r))
  {
    hide Exec, Writes, Publishing, Checks, Takes;
    var first := Writes(Publishing(n, p)) + Checks(n) + [TakeByte(i)];
    var second := Writes(Publishing(n, q)) + Takes(n, 0) + [Deliver];
    turns := first + second;
    ExecAll(Start(n), first, second);
    var a := FirstHalf(n, p, i);
    var c := SecondHalf(n, a, p, q, i);
    var d := q[i := p[i]];
    assert d[i] != q[i] && d[j] != p[j];
    assert !Whole([p, q], c.delivered[0]);
  }

  /** Over a stock of payloads every delivery of every run is one that was sent, under its number or later, exactly
      when no two payloads of the stock differ in more than one byte. */
  lemma WholeInRacesExactly(n: nat, stock: set<Payload>)
    requires forall p :: p in stock ==> |p| == n
    ensures (forall turns: seq<Turn> :: From(stock, Exec(Start(n), turns).w) ==> AllWhole(Exec(Start(n), turns)))
       <==> (forall p, q :: p in stock && q in stock ==> OneByteApart(p, q))
  {
    if forall p, q :: p in stock && q in stock ==> OneByteApart(p, q) {
      forall turns: seq<Turn> | From(stock, Exec(Start(n), turns).w) ensures AllWhole(Exec(Start(n), turns)) {
        OneByteArrivesWhole(n, turns);
      }
    } else {
      var p, q :| p in stock && q in stock && !OneByteApart(p, q);
      var i, j :| 0 <= i < n && 0 <= j < n && p[i] != q[i] && p[j] != q[j] && i != j;
      var turns := MixedDelivery(n, p, q, i, j);
      assert From(stock, Exec(Start(n), turns).w);
    }
  }

  // ---------- When the writer rests ----------

  /** A whole check and copy. */
  function Reads(n: nat): seq<Turn> { Checks(n) + Takes(n, 0) + [Deliver] }

  lemma ReadsExec(n: nat, r: Race)
    requires r.reader.Waiting? && Verified(r.w.slot) && |r.w.slot.payload| == n
    ensures (Exec(r, Reads(n)) == if r.w.slot.number <= r.last then r
      else r.(last := r.w.slot.number,
              delivered := r.delivered + [Delivery(r.w.slot.number, r.w.slot.payload)]))
  {
    hide Exec, Checks, Takes;
    ExecAll(r, Checks(n) + Takes(n, 0), [Deliver]);
    ExecAll(r, Checks(n), Takes(n, 0));
    ChecksExec(r, n);
    var c := Exec(r, Checks(n));
    if r.w.slot.number <= r.last {
      NothingToTake(r, n, 0);
      ExecOne(r, Deliver);
    } else {
      TakesExec(c, n, 0);
      var t := Exec(c, Takes(n, 0));
      assert t.reader.taken == r.w.slot.payload;
      assert true !in t.reader.left;
      ExecOne(t, Deliver);
    }
  }

  /** So mixtures do not last: once the writer rests, one more undisturbed read leaves the last payload, whole and
      under its own number, as the last delivery, whatever happened before. */
  lemma QuietReadCatchesUp(n: nat, turns: seq<Turn>)
    requires (var r := Exec(Start(n), turns); r.reader.Waiting? && r.w.writer.Idle? && r.w.sent != [])
    ensures (var r := Exec(Start(n), turns + Reads(n));
      && r.delivered != [] && r.w.sent != []
      && r.delivered[|r.delivered| - 1] == Delivery(|r.w.sent|, Last(r.w.sent)))
  {
    hide Exec, Reads;
    var r := Exec(Start(n), turns);
    AlwaysInv(n, Start(n), turns);
    ExecAll(Start(n), turns, Reads(n));
    ReadsExec(n, r);
    if r.w.slot.number <= r.last {
      var d := r.delivered[|r.delivered| - 1];
      assert AllRecent(r.w.sent, n, d);
      forall i | 0 <= i < n ensures d.payload[i] == Last(r.w.sent)[i] {
        assert Recent(r.w.sent, d.number, i, d.payload[i]);
      }
      assert d.payload == Last(r.w.sent);
    }
  }

  // ---------- The five slots ----------

  lemma ArmArrivesWhole(turns: seq<Turn>)
    requires AllSendable(ArmSlot, Exec(Start(4), turns).w)
    ensures AllWhole(Exec(Start(4), turns))
  {
    hide Exec;
    var sent := Exec(Start(4), turns).w.sent;
    forall j, k | 0 <= j < |sent| && 0 <= k < |sent| ensures |sent[j]| == |sent[k]| && OneByteApart(sent[j], sent[k]) {
      assert Sendable(ArmSlot, sent[j], j + 1) && Sendable(ArmSlot, sent[k], k + 1);
      forall i | 0 < i < 4 ensures sent[j][i] == sent[k][i] {
        assert sent[j][1..][i - 1] == sent[k][1..][i - 1];
      }
    }
    OneByteArrivesWhole(4, turns);
  }

  /** What a poll hands on of a payload it has accepted: of a stop only the fact. */
  function HandedOn(kind: Kind, p: Payload): Payload {
    if kind.EmergencySlot? then [] else p
  }

  /** What is handed on is what a payload of this number or a later one would give. */
  ghost predicate AsSent(kind: Kind, sent: seq<Payload>, d: Delivery) {
    exists j :: 0 <= j < |sent| && d.number <= j + 1 && HandedOn(kind, sent[j]) == HandedOn(kind, d.payload)
  }

  ghost predicate AllAsSent(kind: Kind, r: Race) {
    forall k :: 0 <= k < |r.delivered| ==> AsSent(kind, r.w.sent, r.delivered[k])
  }

  lemma StopIsAsSent(turns: seq<Turn>)
    ensures AllAsSent(EmergencySlot, Exec(Start(4), turns))
  {
    hide Exec;
    var r := Exec(Start(4), turns);
    AlwaysInv(4, Start(4), turns);
    forall k | 0 <= k < |r.delivered| ensures AsSent(EmergencySlot, r.w.sent, r.delivered[k]) {
      NumberInRange(4, r, k);
      var j := r.delivered[k].number - 1;
      assert HandedOn(EmergencySlot, r.w.sent[j]) == HandedOn(EmergencySlot, r.delivered[k].payload);
    }
  }

  lemma ArmIsAsSent(turns: seq<Turn>)
    requires AllSendable(ArmSlot, Exec(Start(4), turns).w)
    ensures AllAsSent(ArmSlot, Exec(Start(4), turns))
  {
    hide Exec, Sendable;
    var r := Exec(Start(4), turns);
    ArmArrivesWhole(turns);
    forall k | 0 <= k < |r.delivered| ensures AsSent(ArmSlot, r.w.sent, r.delivered[k]) {
      assert Whole(r.w.sent, r.delivered[k]);
      var j :| 0 <= j < |r.w.sent| && r.delivered[k].number <= j + 1 && r.w.sent[j] == r.delivered[k].payload;
      assert HandedOn(ArmSlot, r.w.sent[j]) == HandedOn(ArmSlot, r.delivered[k].payload);
    }
  }

  /** The larger slots can hand on a mixture of two payloads that Linux can send one after the other. */
  lemma MixtureIsHandedOn(kind: Kind) returns (turns: seq<Turn>)
    requires !kind.ArmSlot? && !kind.EmergencySlot?
    ensures AllSendable(kind, Exec(Start(Size(kind)), turns).w)
    ensures !AllAsSent(kind, Exec(Start(Size(kind)), turns))
  {
    hide Exec, Sendable, Colliding, First;
    var n, p := Size(kind), First(kind);
    var q := Colliding(p);
    CollidingIsSendable(kind);
    CollidingDiffers(p);
    turns := MixedDelivery(n, p, q, 0, n - 4);
    var r := Exec(Start(n), turns);
    assert AllSendable(kind, r.w);
    assert !Whole(r.w.sent, r.delivered[0]);
    assert !AsSent(kind, r.w.sent, r.delivered[0]);
  }

  /** With a reader that can be overtaken anywhere, of the slots as Linux fills them exactly the arm and the emergency
      slot always hand on what was sent: only one byte of the first is ever in use, and only the fact of the second. */
  lemma RaceSafetyExactly(kind: Kind)
    ensures (forall turns: seq<Turn> ::
        AllSendable(kind, Exec(Start(Size(kind)), turns).w) ==> AllAsSent(kind, Exec(Start(Size(kind)), turns)))
      <==> kind.ArmSlot? || kind.EmergencySlot?
  {
    hide Exec, Sendable;
    if kind.ArmSlot? {
      forall turns: seq<Turn> | AllSendable(ArmSlot, Exec(Start(4), turns).w)
        ensures AllAsSent(ArmSlot, Exec(Start(4), turns))
      {
        ArmIsAsSent(turns);
      }
    } else if kind.EmergencySlot? {
      forall turns: seq<Turn> ensures AllAsSent(EmergencySlot, Exec(Start(4), turns)) {
        StopIsAsSent(turns);
      }
    } else {
      var turns := MixtureIsHandedOn(kind);
    }
  }

  /** With one reason only, which is all that Linux uses, not even the reasons can mix. */
  lemma LinuxStopsArriveWhole(turns: seq<Turn>)
    requires From({EmergencyBytes(CommandEmergencyStop(1))}, Exec(Start(4), turns).w)
    ensures AllWhole(Exec(Start(4), turns))
  {
    hide Exec;
    WholeInRacesExactly(4, {EmergencyBytes(CommandEmergencyStop(1))});
  }

  /** Of the emergency slot only the fact is taken, and that is safe: every stop reported is one that was published,
      under a number larger than that of any stop reported before. */
  lemma StopsAreNew(turns: seq<Turn>, k: nat)
    requires k < |Exec(Start(4), turns).delivered|
    ensures (var r := Exec(Start(4), turns);
      && 0 < r.delivered[k].number <= r.w.slot.number <= |r.w.sent|
      && forall j :: 0 <= j < k ==> r.delivered[j].number < r.delivered[k].number)
  {
    hide Exec;
    AlwaysInv(4, Start(4), turns);
    NumberInRange(4, Exec(Start(4), turns), k);
    var d := Exec(Start(4), turns).delivered;
    forall j | 0 <= j < k ensures d[j].number < d[k].number { IncreasingPair(d, j, k); }
  }
}
