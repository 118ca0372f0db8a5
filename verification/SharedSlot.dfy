/**
 One shared-memory slot between the Linux writer and the RTOS reader. The writer copies the payload
 byte by byte, then stores the CRC, then the sequence number; the reader takes the slot in one call.
 All interleavings of the two are covered; `SlotRace` takes the reader apart into single accesses as well.
 */
module SharedSlot {
  import opened Crc32

  datatype Slot<T> = Slot(number: nat, payload: T, crc: Word)

  type Payload = seq<Byte>

  /** What the reader demands of a slot before it looks at the payload. */
  predicate Verified(slot: Slot<Payload>) {
    slot.number != 0 && slot.crc == Crc(slot.payload)
  }

  function Zeros(n: nat): (z: Payload)
    ensures |z| == n && forall i :: 0 <= i < n ==> z[i] == 0
  {
    seq(n, i => 0 as Byte)
  }

  // ---------- Writer and reader as steps ----------

  /** Where the writer is: between publishes, copying (with a mark for every byte still to be
      copied, in whatever order), or about to store the sequence number. */
  datatype Writer = Idle | Copying(left: seq<bool>) | Stamping

  datatype Delivery = Delivery(number: nat, payload: Payload)

  /** `sent` lists every payload whose publish has begun; the i-th of them carries number i + 1.
      `last` is the reader's last accepted number and `delivered` its history. */
  datatype State = State(
    slot: Slot<Payload>, writer: Writer, sent: seq<Payload>, last: nat, delivered: seq<Delivery>)

  datatype Step = Begin(payload: Payload) | CopyByte(i: nat) | StoreCrc | StoreNumber | Parse

  function Init(n: nat): State {
    State(Slot(0, Zeros(n), 0), Idle, [], 0, [])
  }

  function Marks(n: nat): (m: seq<bool>)
    ensures |m| == n && forall i :: 0 <= i < n ==> m[i]
  {
    seq(n, i => true)
  }

  function Last(s: seq<Payload>): Payload
    requires s != []
  {
    s[|s| - 1]
  }

  /** A step that its side cannot take leaves the state alone. */
  function Apply(s: State, step: Step): State {
    match step
    case Begin(p) =>
      if s.writer.Idle? && |p| == |s.slot.payload|
      then s.(writer := Copying(Marks(|p|)), sent := s.sent + [p])
      else s
    case CopyByte(i) =>
      if s.writer.Copying? && s.sent != []
         && i < |s.writer.left| == |s.slot.payload| == |Last(s.sent)| && s.writer.left[i]
      then s.(slot := s.slot.(payload := s.slot.payload[i := Last(s.sent)[i]]),
              writer := Copying(s.writer.left[i := false]))
      else s
    case StoreCrc =>
      if s.writer.Copying? && true !in s.writer.left && s.sent != []
      then s.(slot := s.slot.(crc := Crc(Last(s.sent))), writer := Stamping)
      else s
    case StoreNumber =>
      if s.writer.Stamping? then s.(slot := s.slot.(number := |s.sent|), writer := Idle) else s
    case Parse =>
      if Verified(s.slot) && s.slot.number > s.last
      then s.(last := s.slot.number,
              delivered := s.delivered + [Delivery(s.slot.number, s.slot.payload)])
      else s
  }

  function Exec(s: State, steps: seq<Step>): State
    decreases |steps|
  {
    if steps == [] then s else Exec(Apply(s, steps[0]), steps[1..])
  }

  lemma {:induction false} ExecConcat(s: State, a: seq<Step>, b: seq<Step>)
    ensures Exec(s, a + b) == Exec(Exec(s, a), b)
    decreases |a|
  {
    if a == [] {
      assert a + b == b;
    } else {
      assert (a + b)[1..] == a[1..] + b;
      ExecConcat(Apply(s, a[0]), a[1..], b);
    }
  }

  // ---------- What every interleaving keeps ----------

  /** How many payloads are in the slot completely, CRC included. */
  function Stored(s: State): nat {
    if s.writer.Copying? && s.sent != [] then |s.sent| - 1 else |s.sent|
  }

  /** The k-th payload ever in the slot; before the first there is the cleared memory. */
  function Nth(s: State, n: nat, k: nat): Payload
    requires k <= |s.sent|
  {
    if k == 0 then Zeros(n) else s.sent[k - 1]
  }

  ghost predicate SlotInv(n: nat, s: State) {
    && |s.slot.payload| == n
    && (forall k :: 0 <= k < |s.sent| ==> |s.sent[k]| == n)
    && (!s.writer.Idle? ==> s.sent != [])
    && s.slot.number == (if s.writer.Idle? then |s.sent| else |s.sent| - 1)
    && (Stored(s) > 0 ==> s.slot.crc == Crc(s.sent[Stored(s) - 1]))
    && (match s.writer
        case Copying(left) =>
          && |left| == n
          && (forall i :: 0 <= i < n && left[i] ==> s.slot.payload[i] == Nth(s, n, |s.sent| - 1)[i])
          && (forall i :: 0 <= i < n && !left[i] ==> s.slot.payload[i] == s.sent[|s.sent| - 1][i])
        case _ => s.slot.payload == Nth(s, n, |s.sent|))
  }

  ghost predicate Increasing(d: seq<Delivery>) {
    && (d != [] ==> 0 < d[0].number)
    && forall k :: 0 < k < |d| ==> d[k - 1].number < d[k].number
  }

  ghost predicate HistoryInv(s: State) {
    && Increasing(s.delivered)
    && s.last == (if s.delivered == [] then 0 else s.delivered[|s.delivered| - 1].number)
    && s.last <= s.slot.number <= |s.sent|
    && (s.delivered != [] && s.last == |s.sent| > 0 ==>
          s.delivered[|s.delivered| - 1].payload == s.sent[|s.sent| - 1])
  }

  /** A delivery is the payload of its number, or the next one if that was already complete. */
  ghost predicate Genuine(s: State, d: Delivery) {
    && 0 < d.number <= |s.sent|
    && (d.payload == s.sent[d.number - 1] || (d.number < Stored(s) && d.payload == s.sent[d.number]))
  }

  ghost predicate AllGenuine(s: State) {
    forall k :: 0 <= k < |s.delivered| ==> Genuine(s, s.delivered[k])
  }

  lemma BeginInv(n: nat, s: State, p: Payload)
    requires SlotInv(n, s) && s.writer.Idle? && |p| == n
    ensures SlotInv(n, Apply(s, Begin(p)))
  {
  }

  lemma SlotStep(n: nat, s: State, step: Step)
    requires SlotInv(n, s)
    ensures SlotInv(n, Apply(s, step))
  {
    match step
    case Begin(p) =>
      if s.writer.Idle? && |p| == n { BeginInv(n, s, p); }
    case StoreCrc =>
      if s.writer.Copying? && true !in s.writer.left { assert s.slot.payload == Last(s.sent); }
    case _ =>
  }

  lemma ParseHistory(n: nat, s: State)
    requires SlotInv(n, s) && HistoryInv(s)
    ensures HistoryInv(Apply(s, Parse))
  {
    var t := Apply(s, Parse);
    if t != s {
      assert t.delivered == s.delivered + [Delivery(s.slot.number, s.slot.payload)];
      assert s.slot.number == |s.sent| ==> s.writer.Idle?;
    }
  }

  lemma HistoryStep(n: nat, s: State, step: Step)
    requires SlotInv(n, s) && HistoryInv(s)
    ensures HistoryInv(Apply(s, step))
  {
    if step.Parse? {
      ParseHistory(n, s);
    } else {
      assert Apply(s, step).delivered == s.delivered;
    }
  }

  /** With at most four bytes, a slot that verifies holds a complete payload. */
  lemma VerifiedIsWhole(n: nat, s: State)
    requires n <= 4 && SlotInv(n, s) && Verified(s.slot)
    ensures s.writer.Copying? ==> s.slot.payload == s.sent[|s.sent| - 2]
  {
    if s.writer.Copying? {
      CrcInjectiveUpTo4(s.slot.payload, s.sent[Stored(s) - 1]);
    }
  }

  lemma GenuineStep(n: nat, s: State, step: Step)
    requires n <= 4 && SlotInv(n, s) && AllGenuine(s)
    ensures AllGenuine(Apply(s, step))
  {
    var t := Apply(s, step);
    if step.Parse? && t != s {
      VerifiedIsWhole(n, s);
      assert Genuine(t, Delivery(s.slot.number, s.slot.payload));
    }
    forall k | 0 <= k < |t.delivered| ensures Genuine(t, t.delivered[k]) {
      if k < |s.delivered| { assert Genuine(s, s.delivered[k]); }
    }
  }

  lemma {:induction false} RunInv(n: nat, s: State, steps: seq<Step>)
    requires SlotInv(n, s) && HistoryInv(s)
    ensures SlotInv(n, Exec(s, steps)) && HistoryInv(Exec(s, steps))
    ensures n <= 4 && AllGenuine(s) ==> AllGenuine(Exec(s, steps))
    decreases |steps|
  {
    if steps != [] {
      SlotStep(n, s, steps[0]);
      HistoryStep(n, s, steps[0]);
      if n <= 4 && AllGenuine(s) { GenuineStep(n, s, steps[0]); }
      RunInv(n, Apply(s, steps[0]), steps[1..]);
    }
  }

  // ---------- The three promises ----------

  lemma {:induction false} IncreasingPair(d: seq<Delivery>, j: nat, k: nat)
    requires Increasing(d) && j < k < |d|
    ensures 0 < d[j].number < d[k].number
  {
    if j < k - 1 {
      IncreasingPair(d, j, k - 1);
    } else if j > 0 {
      IncreasingPair(d, 0, j);
    }
  }

  /** In every interleaving the accepted numbers strictly increase, whatever the payload size. */
  lemma NumbersIncrease(n: nat, steps: seq<Step>, j: nat, k: nat)
    requires j < k < |Exec(Init(n), steps).delivered|
    ensures var d := Exec(Init(n), steps).delivered; 0 < d[j].number < d[k].number
  {
    RunInv(n, Init(n), steps);
    IncreasingPair(Exec(Init(n), steps).delivered, j, k);
  }

  /** In every interleaving a payload of at most four bytes is delivered whole. */
  lemma TornPublishSafe(n: nat, steps: seq<Step>)
    requires n <= 4
    ensures AllGenuine(Exec(Init(n), steps))
  {
    RunInv(n, Init(n), steps);
  }

  /** Once the writer rests, one more poll leaves the reader with the last published payload. */
  lemma QuietPollCatchesUp(n: nat, steps: seq<Step>)
    requires Exec(Init(n), steps).writer.Idle? && Exec(Init(n), steps).sent != []
    ensures var s := Exec(Init(n), steps + [Parse]);
            s.delivered != [] && s.sent != []
            && s.delivered[|s.delivered| - 1] == Delivery(|s.sent|, Last(s.sent))
  {
    RunInv(n, Init(n), steps);
    var s := Exec(Init(n), steps);
    ExecConcat(Init(n), steps, [Parse]);
    assert Exec(s, [Parse]) == Apply(s, Parse);
  }

  // ---------- Four bytes is the exact limit ----------

  /** Copying the marked bytes from index lo on, in order. */
  function Copies(marks: seq<bool>, lo: nat): seq<Step>
    requires lo <= |marks|
    decreases |marks| - lo
  {
    if lo == |marks| then []
    else if marks[lo] then [CopyByte(lo)] + Copies(marks, lo + 1)
    else Copies(marks, lo + 1)
  }

  lemma CopyOne(n: nat, s: State, i: nat) returns (t: State)
    requires SlotInv(n, s) && s.writer.Copying? && i < n && s.writer.left[i]
    ensures t == Apply(s, CopyByte(i)) && SlotInv(n, t)
    ensures t.writer == Copying(s.writer.left[i := false])
    ensures t == s.(slot := s.slot.(payload := t.slot.payload), writer := t.writer)
  {
    t := Apply(s, CopyByte(i));
    SlotStep(n, s, CopyByte(i));
  }

  lemma {:induction false} CopyMarked(n: nat, s: State, marks: seq<bool>, lo: nat)
    requires SlotInv(n, s) && s.writer.Copying? && lo <= |marks| == n
    requires forall i :: lo <= i < n && marks[i] ==> s.writer.left[i]
    ensures var t := Exec(s, Copies(marks, lo));
      && SlotInv(n, t) && t.writer.Copying?
      && (forall i :: 0 <= i < n ==> t.writer.left[i] == (s.writer.left[i] && !(lo <= i && marks[i])))
      && t == s.(slot := s.slot.(payload := t.slot.payload), writer := t.writer)
    decreases n - lo
  {
    if lo < n {
      if marks[lo] {
        var c := Copies(marks, lo);
        assert c[0] == CopyByte(lo) && c[1..] == Copies(marks, lo + 1);
        var t := CopyOne(n, s, lo);
        CopyMarked(n, t, marks, lo + 1);
      } else {
        CopyMarked(n, s, marks, lo + 1);
      }
    }
  }

  function Publishing(n: nat, p: Payload): seq<Step> {
    [Begin(p)] + Copies(Marks(n), 0) + [StoreCrc, StoreNumber]
  }

  /** A publish that is not interrupted stores payload, CRC and number in one go. */
  lemma SoloPublish(n: nat, s: State, p: Payload)
    requires SlotInv(n, s) && s.writer.Idle? && |p| == n
    ensures Exec(s, Publishing(n, p)) ==
            s.(slot := Slot(|s.sent| + 1, p, Crc(p)), sent := s.sent + [p])
  {
    var b := Apply(s, Begin(p));
    SlotStep(n, s, Begin(p));
    CopyMarked(n, b, Marks(n), 0);
    ExecConcat(s, [Begin(p)] + Copies(Marks(n), 0), [StoreCrc, StoreNumber]);
    ExecConcat(s, [Begin(p)], Copies(Marks(n), 0));
    assert Exec(s, [Begin(p)]) == b;
    var c := Exec(b, Copies(Marks(n), 0));
    assert true !in c.writer.left;
    SlotStep(n, c, StoreCrc);
    var d := Apply(c, StoreCrc);
    assert [StoreCrc, StoreNumber][1..] == [StoreNumber];
    assert Exec(d, [StoreNumber]) == Apply(d, StoreNumber);
    assert d.slot.payload == p;
  }

  /** Of one more publish, of `p`, everything up to the copying of the marked bytes. */
  function PartCopy(p: Payload, marks: seq<bool>): seq<Step> {
    [Begin(p)] + Copies(marks, 0)
  }

  lemma PartCopyState(n: nat, s: State, p: Payload, marks: seq<bool>)
    requires SlotInv(n, s) && s.writer.Idle? && |marks| == |p| == n
    ensures var t := Exec(s, PartCopy(p, marks));
      && SlotInv(n, t) && t.writer.Copying?
      && (forall i :: 0 <= i < n ==> t.writer.left[i] == !marks[i])
      && t == s.(slot := s.slot.(payload := t.slot.payload), writer := t.writer, sent := s.sent + [p])
  {
    SlotStep(n, s, Begin(p));
    var b := Apply(s, Begin(p));
    ExecConcat(s, [Begin(p)], Copies(marks, 0));
    assert Exec(s, [Begin(p)]) == b;
    CopyMarked(n, b, marks, 0);
  }

  /** One whole publish of `a`, then part of a publish of `p`. */
  function Interrupted(n: nat, a: Payload, p: Payload, marks: seq<bool>): seq<Step> {
    Publishing(n, a) + PartCopy(p, marks)
  }

  lemma InterruptedState(n: nat, a: Payload, p: Payload, marks: seq<bool>)
    requires |a| == |p| == |marks| == n
    ensures var s := Exec(Init(n), Interrupted(n, a, p, marks));
      && SlotInv(n, s) && s.writer.Copying?
      && (forall i :: 0 <= i < n ==> s.writer.left[i] == !marks[i])
      && (forall i :: 0 <= i < n ==> s.slot.payload[i] == if marks[i] then p[i] else a[i])
      && s == State(Slot(1, s.slot.payload, Crc(a)), s.writer, [a, p], 0, [])
  {
    RunInv(n, Init(n), Publishing(n, a));
    SoloPublish(n, Init(n), a);
    ExecConcat(Init(n), Publishing(n, a), PartCopy(p, marks));
    PartCopyState(n, Exec(Init(n), Publishing(n, a)), p, marks);
    assert [a] + [p] == [a, p];
  }

  /** A publish of `mixture` in all but one byte, over `a` with the same CRC, is delivered as `mixture`. */
  lemma TornDelivery(n: nat, a: Payload, mixture: Payload, at: nat, other: Byte) returns (steps: seq<Step>)
    requires |a| == |mixture| == n && at < n && Crc(a) == Crc(mixture)
    requires a != mixture && a[at] == mixture[at] != other
    ensures var s := Exec(Init(n), steps);
      && s.sent == [a, mixture[at := other]] && s.delivered == [Delivery(1, mixture)]
      && mixture !in s.sent
  {
    var p, marks := mixture[at := other], Marks(n)[at := false];
    var first := Interrupted(n, a, p, marks);
    InterruptedState(n, a, p, marks);
    steps := first + [Parse];
    ExecConcat(Init(n), first, [Parse]);
    var d := Exec(Init(n), first);
    assert Exec(d, [Parse]) == Apply(d, Parse);
    assert d.slot.payload == mixture;
    assert p[at] != mixture[at];
  }

  function Low(number: nat): Byte { (number % 0x100) as Byte }

  /** The payload ends with its own number, in four bytes, the low one first. */
  predicate Carries(p: Payload, number: nat) {
    |p| >= 4 && p[|p| - 4..] == [Low(number), Low(number / 0x100), Low(number / 0x1_0000), Low(number / 0x100_0000)]
  }

  /** The payload with five bytes changed in a way that its CRC does not notice, and with the next number. */
  function Colliding(a: Payload): (b: Payload)
    requires |a| >= 9
    ensures |b| == |a|
  {
    (Xor(a[..5], BLIND) + a[5..])[|a| - 4 := 2]
  }

  lemma LowBytes(number: nat)
    requires 1 <= number <= 2
    ensures Low(number) == (if number == 1 then 1 else 2)
    ensures Low(number / 0x100) == Low(number / 0x1_0000) == Low(number / 0x100_0000) == 0
  {
  }

  lemma CarriesExactly(p: Payload, number: nat)
    requires |p| >= 4 && 1 <= number <= 2
    ensures (Carries(p, number) <==>
      && p[|p| - 4] == (if number == 1 then 1 else 2) && p[|p| - 3] == p[|p| - 2] == p[|p| - 1] == 0)
  {
    LowBytes(number);
    var tail := p[|p| - 4..];
    assert tail[0] == p[|p| - 4] && tail[1] == p[|p| - 3] && tail[2] == p[|p| - 2] && tail[3] == p[|p| - 1];
  }

  lemma CollidingDiffers(a: Payload)
    requires |a| >= 9 && Carries(a, 1)
    ensures Colliding(a)[0] != a[0] && Colliding(a)[|a| - 4] != a[|a| - 4]
  {
    CarriesExactly(a, 1);
    XorByteZero(a[0], BLIND[0]);
    XorByteZero(a[0], Colliding(a)[0]);
  }

  /** From nine bytes on, payloads that end with their own numbers do not help: over any first payload at all a second
      one is half copied so that the mixture, which even carries the number it is delivered under, verifies. */
  lemma TornReadPossible(a: Payload) returns (steps: seq<Step>)
    requires |a| >= 9 && Carries(a, 1)
    ensures var s := Exec(Init(|a|), steps);
      && s.sent == [a, Colliding(a)] && Carries(Colliding(a), 2)
      && s.delivered == [Delivery(1, Colliding(a)[|a| - 4 := 1])] && Carries(s.delivered[0].payload, 1)
      && s.delivered[0].payload !in s.sent
  {
    var n := |a|;
    var mixture := CrcCollidesFrom5(a);
    CarriesExactly(a, 1);
    assert mixture[n - 4] == a[n - 4] && mixture[n - 3] == a[n - 3];
    assert mixture[n - 2] == a[n - 2] && mixture[n - 1] == a[n - 1];
    assert Colliding(a)[n - 4 := 1] == mixture;
    CarriesExactly(mixture, 1);
    CarriesExactly(mixture[n - 4 := 2], 2);
    steps := TornDelivery(n, a, mixture, n - 4, 2);
  }

  /** With payloads of any content that is so from five bytes on. */
  lemma TornContentPossible(n: nat) returns (steps: seq<Step>)
    requires n >= 5
    ensures var s := Exec(Init(n), steps);
            s.delivered != [] && s.delivered[0].payload !in s.sent
  {
    var a := Zeros(n);
    var mixture := CrcCollidesFrom5(a);
    steps := TornDelivery(n, a, mixture, 3, 1);
  }

  /** For payloads of any content, torn reads are excluded in every interleaving exactly up to four bytes. */
  lemma TornSafetyExactly(n: nat)
    ensures (forall steps: seq<Step> :: AllGenuine(Exec(Init(n), steps))) <==> n <= 4
  {
    if n <= 4 {
      forall steps: seq<Step> ensures AllGenuine(Exec(Init(n), steps)) { TornPublishSafe(n, steps); }
    } else {
      var steps := TornContentPossible(n);
      var s := Exec(Init(n), steps);
      assert !Genuine(s, s.delivered[0]);
      assert !AllGenuine(s);
    }
  }

  /** A payload can be delivered twice, under its predecessor's number and under its own. */
  lemma DeliveredTwice(n: nat, p: Payload, q: Payload) returns (steps: seq<Step>)
    requires |p| == |q| == n
    ensures Exec(Init(n), steps).delivered == [Delivery(1, q), Delivery(2, q)]
  {
    var first := Interrupted(n, p, q, Marks(n));
    InterruptedState(n, p, q, Marks(n));
    var tail := [StoreCrc, Parse, StoreNumber, Parse];
    steps := first + tail;
    ExecConcat(Init(n), first, tail);
    var c := Exec(Init(n), first);
    SlotStep(n, c, StoreCrc);
    var d := Apply(c, StoreCrc);
    assert d.slot.payload == q;
    var f := Apply(Apply(d, Parse), StoreNumber);
    assert tail[1..] == [Parse, StoreNumber, Parse] && tail[1..][1..] == [StoreNumber, Parse];
    assert [StoreNumber, Parse][1..] == [Parse];
    assert Exec(f, [Parse]) == Apply(f, Parse);
  }

  /** A delivery of at most four bytes is the payload of its own number, exactly unless the writer was about to store
      the next number, with another payload. */
  lemma OwnNumberExactly(n: nat, steps: seq<Step>)
    requires n <= 4
    ensures (var s := Exec(Init(n), steps); var t := Apply(s, Parse);
      t.delivered != s.delivered ==>
        && 0 < s.slot.number <= |s.sent| && t.delivered == s.delivered + [Delivery(s.slot.number, s.slot.payload)]
        && (s.slot.payload == s.sent[s.slot.number - 1]
            <==> (s.writer.Stamping? ==> Last(s.sent) == s.sent[s.slot.number - 1])))
  {
    hide Exec;
    RunInv(n, Init(n), steps);
    var s := Exec(Init(n), steps);
    if Verified(s.slot) {
      VerifiedIsWhole(n, s);
    }
  }

  // ---------- A reader that trusts the number alone ----------

  predicate Blank(p: Payload) {
    forall i :: 0 <= i < |p| ==> p[i] == 0
  }

  /** Both payloads have something in the same byte. */
  ghost predicate Overlap(a: Payload, b: Payload) {
    exists i :: 0 <= i < |a| && i < |b| && a[i] != 0 && b[i] != 0
  }

  /** The payload in the slot, read as it is, is blank only if the payload of the slot's number is, or the one
      being published next. It does not matter when the reader looked at the number. */
  ghost predicate BlankIsMeant(s: State) {
    s.slot.number > 0 && Blank(s.slot.payload) ==>
      && s.slot.number <= |s.sent|
      && (Blank(s.sent[s.slot.number - 1]) || (s.slot.number < |s.sent| && Blank(s.sent[s.slot.number])))
  }

  /** Every byte in the slot belongs to the payload of the slot's number or to the next one. */
  lemma UnverifiedBytes(n: nat, steps: seq<Step>, i: nat)
    requires i < n && Exec(Init(n), steps).slot.number > 0
    ensures var s := Exec(Init(n), steps); var k := s.slot.number;
      && k <= |s.sent| && |s.slot.payload| == |s.sent[k - 1]| == n
      && (k < |s.sent| ==> |s.sent[k]| == n)
      && (s.slot.payload[i] == s.sent[k - 1][i] || (k < |s.sent| && s.slot.payload[i] == s.sent[k][i]))
  {
    RunInv(n, Init(n), steps);
  }

  ghost predicate From(stock: set<Payload>, s: State) {
    forall k :: 0 <= k < |s.sent| ==> s.sent[k] in stock
  }

  /** A byte that is not zero in either payload is not zero in the slot. */
  lemma BothShow(n: nat, steps: seq<Step>, i: nat)
    requires var s := Exec(Init(n), steps); var k := s.slot.number;
      && 0 < k <= |s.sent| && i < |s.sent[k - 1]| && s.sent[k - 1][i] != 0
      && (k < |s.sent| ==> i < |s.sent[k]| && s.sent[k][i] != 0)
    ensures !Blank(Exec(Init(n), steps).slot.payload)
  {
    RunInv(n, Init(n), steps);
    UnverifiedBytes(n, steps, i);
    assert Exec(Init(n), steps).slot.payload[i] != 0;
  }

  lemma OverlapKeepsMeaning(n: nat, steps: seq<Step>)
    requires var s := Exec(Init(n), steps);
      forall j, k :: 0 <= j < |s.sent| && 0 <= k < |s.sent| && !Blank(s.sent[j]) && !Blank(s.sent[k])
        ==> Overlap(s.sent[j], s.sent[k])
    ensures BlankIsMeant(Exec(Init(n), steps))
  {
    var s := Exec(Init(n), steps);
    var k := s.slot.number;
    RunInv(n, Init(n), steps);
    if k > 0 && Blank(s.slot.payload) && !Blank(s.sent[k - 1]) {
      if k < |s.sent| && !Blank(s.sent[k]) {
        assert Overlap(s.sent[k - 1], s.sent[k]);
        var i: nat :| i < |s.sent[k - 1]| && i < |s.sent[k]| && s.sent[k - 1][i] != 0 && s.sent[k][i] != 0;
        BothShow(n, steps, i);
      }
    }
  }

  /** Two payloads that do not overlap can be mixed to a blank. */
  lemma BlankMixture(n: nat, a: Payload, b: Payload) returns (steps: seq<Step>)
    requires |a| == |b| == n && !Overlap(a, b)
    ensures var s := Exec(Init(n), steps); s.sent == [a, b] && s.slot.number == 1 && Blank(s.slot.payload)
  {
    var marks := seq(n, i requires 0 <= i < n => b[i] == 0);
    steps := Interrupted(n, a, b, marks);
    InterruptedState(n, a, b, marks);
  }

  /** Also over what was published before. */
  lemma BlankMixtureLater(n: nat, first: Payload, a: Payload, b: Payload) returns (later: seq<Step>)
    requires |first| == |a| == |b| == n && !Overlap(a, b)
    ensures var s := Exec(Init(n), Publishing(n, first) + later);
            s.sent == [first, a, b] && s.slot.number == 2 && s.slot.payload == Zeros(n)
  {
    hide Exec, Publishing, PartCopy;
    var marks := seq(n, i requires 0 <= i < n => b[i] == 0);
    later := Publishing(n, a) + PartCopy(b, marks);
    var s1 := Exec(Init(n), Publishing(n, first));
    var s2 := Exec(s1, Publishing(n, a));
    ExecConcat(Init(n), Publishing(n, first), later);
    ExecConcat(s1, Publishing(n, a), PartCopy(b, marks));
    RunInv(n, Init(n), Publishing(n, first));
    RunInv(n, s1, Publishing(n, a));
    SoloPublish(n, Init(n), first);
    SoloPublish(n, s1, a);
    PartCopyState(n, s2, b, marks);
    var t := Exec(s2, PartCopy(b, marks));
    assert [first] + [a] + [b] == [first, a, b];
    forall i | 0 <= i < n ensures t.slot.payload[i] == 0 {
      assert a[i] == 0 || b[i] == 0;
    }
  }

  /** In every run over a stock of payloads a blank read is meant exactly when all payloads of the stock that are
      not blank overlap pairwise. */
  lemma BlankIsMeantExactly(n: nat, stock: set<Payload>)
    requires forall p :: p in stock ==> |p| == n
    ensures (forall steps: seq<Step> :: From(stock, Exec(Init(n), steps)) ==> BlankIsMeant(Exec(Init(n), steps)))
       <==> (forall a, b :: a in stock && b in stock && !Blank(a) && !Blank(b) ==> Overlap(a, b))
  {
    if forall a, b :: a in stock && b in stock && !Blank(a) && !Blank(b) ==> Overlap(a, b) {
      forall steps: seq<Step> | From(stock, Exec(Init(n), steps)) ensures BlankIsMeant(Exec(Init(n), steps)) {
        OverlapKeepsMeaning(n, steps);
      }
    } else {
      var a, b :| a in stock && b in stock && !Blank(a) && !Blank(b) && !Overlap(a, b);
      var steps := BlankMixture(n, a, b);
      assert From(stock, Exec(Init(n), steps)) && !BlankIsMeant(Exec(Init(n), steps));
    }
  }
}
