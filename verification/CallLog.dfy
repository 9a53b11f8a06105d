/** internal/calllog/calllog.go: a ring buffer of the most recent upstream attempts. */
module CallLog {
  import opened Wrappers

  datatype Tokens = Tokens(
    input: int, output: int, cacheRead: int, cacheCreation: int, cached: int, reasoning: int, total: int)

  datatype Entry = Entry(
    requestID: string,
    timestamp: int,
    endpoint: string,
    apiKey: string,
    sourceProtocol: string,
    alias: string,
    provider: string,
    protocol: string,
    model: string,
    internalModel: string,
    httpStatus: int,
    latencyMS: int,
    failed: bool,
    error: string,
    tokens: Tokens)

  /** The newest `k` of a history, newest first. */
  function Newest(history: seq<Entry>, k: nat): (r: seq<Entry>)
    requires k <= |history|
    ensures |r| == k
    ensures forall i :: 0 <= i < k ==> r[i] == history[|history| - 1 - i]
  {
    seq(k, i requires 0 <= i < k => history[|history| - 1 - i])
  }

  function Min(a: int, b: int): int {
    if a < b then a else b
  }

  /** How many entries Recent returns when its three reads of the count saw c1, c2 and c3. */
  function Answered(limit: int, c1: nat, c2: nat, c3: nat): nat {
    if c1 == 0 then 0 else if limit <= 0 || limit > c2 then c3 else limit
  }

  /** Walking backwards from the next write position. */
  function Slot(head: nat, cap: nat, i: nat): (r: nat)
    requires i < cap && head < cap
    ensures r < cap
  {
    (head - 1 - i + cap) % cap
  }

  class Recorder {
    const buf: array<Entry>
    const cap: nat
    var head: nat
    var count: nat
    ghost var history: seq<Entry>

    ghost predicate Valid()
      reads this, buf
    {
      && buf.Length == cap
      && count == Min(|history|, cap)
      && (cap == 0 ==> history == [])
      && (cap > 0 ==> head == |history| % cap)
      && (cap > 0 ==> forall i :: 0 <= i < count ==> buf[Slot(head, cap, i)] == history[|history| - 1 - i])
    }

    constructor (capacity: int, blank: Entry)
      ensures Valid() && history == [] && cap == (if capacity < 0 then 0 else capacity) && fresh(buf)
    {
      var n := if capacity < 0 then 0 else capacity;
      buf := new Entry[n](_ => blank);
      cap, head, count, history := n, 0, 0, [];
    }

    predicate Enabled() {
      cap > 0
    }

    /** Writes over the oldest entry when full. A disabled recorder keeps nothing. */
    method Record(e: Entry)
      requires Valid()
      modifies this, buf
      ensures Valid()
      ensures history == if Enabled() then old(history) + [e] else old(history)
    {
      if !Enabled() {
        return;
      }
      ghost var n := |history|;
      buf[head] := e;
      head := (head + 1) % cap;
      if count < cap {
        count := count + 1;
      }
      history := history + [e];
      NextSlot(n, cap);
      forall i | 0 <= i < count ensures buf[Slot(head, cap, i)] == history[n - i] {
        SlotOf(n + 1, cap, i);
        if i > 0 {
          SlotOf(n, cap, i - 1);
          SlotsDiffer(n, cap, i);
        }
      }
    }

    /** The count is read three times before the lock is taken, so it may have grown in between; what the reads saw
        are parameters. Whatever they saw, the answer is the newest entries at the time of the lock: min(limit, retained)
        of them when nothing intervened, and more than the limit exactly when the count passed it between the second
        read and the third. */
    method Recent(limit: int, c1: nat, c2: nat, c3: nat) returns (out: seq<Entry>)
      requires Valid()
      requires c1 <= c2 <= c3 <= count
      ensures Answered(limit, c1, c2, c3) <= |history|
      ensures out == Newest(history, Answered(limit, c1, c2, c3))
      ensures c1 == count ==> |out| == if limit <= 0 then count else Min(limit, count)
      ensures 0 < limit && 0 < c1 ==> (|out| > limit <==> c2 < limit < c3)
    {
      if !Enabled() || c1 == 0 {
        return [];
      }
      var n := limit;
      if limit <= 0 || limit > c2 {
        n := c3;
      }
      out := [];
      var i := 0;
      while i < n
        invariant 0 <= i <= n && |out| == i
        invariant forall j :: 0 <= j < i ==> out[j] == history[|history| - 1 - j]
      {
        var idx := Slot(head, cap, i);
        out := out + [buf[idx]];
        i := i + 1;
      }
    }
  }

  /** A remainder is told by any way of writing the number as a multiple plus something small. */
  lemma Remainder(x: nat, q: int, r: nat, cap: nat)
    requires cap > 0 && r < cap && x == q * cap + r
    ensures x % cap == r
  {
    SmallMultiple(x / cap - q, cap, r - x % cap);
  }

  /** The only multiple of `cap` strictly within `cap` of zero is zero. */
  lemma SmallMultiple(k: int, cap: int, d: int)
    requires k * cap == d && -cap < d < cap
    ensures k == 0
  {
    if k >= 1 {
      AtLeast(k, cap);
    } else if k <= -1 {
      AtLeast(-k, cap);
    }
  }

  lemma AtLeast(k: int, cap: int)
    requires k >= 1 && cap > 0
    ensures k * cap >= cap
  {
    assert (k - 1) * cap >= 0;
  }

  /** Where the entry `i` before the newest of `n` is stored. */
  lemma SlotOf(n: nat, cap: nat, i: nat)
    requires cap > 0 && i < cap && i < n
    ensures Slot(n % cap, cap, i) == (n - 1 - i) % cap
  {
    var q, h := n / cap, n % cap;
    assert n == q * cap + h;
    if h - 1 - i >= 0 {
      Remainder(h - 1 - i + cap, 1, h - 1 - i, cap);
      Remainder(n - 1 - i, q, h - 1 - i, cap);
    } else {
      Remainder(h - 1 - i + cap, 0, h - 1 - i + cap, cap);
      assert (q - 1) * cap == q * cap - cap;
      Remainder(n - 1 - i, q - 1, h - 1 - i + cap, cap);
    }
  }

  lemma NextSlot(n: nat, cap: nat)
    requires cap > 0
    ensures (n % cap + 1) % cap == (n + 1) % cap
  {
    var q, h := n / cap, n % cap;
    assert n == q * cap + h;
    if h + 1 < cap {
      Remainder(n + 1, q, h + 1, cap);
    } else {
      assert (q + 1) * cap == q * cap + cap;
      Remainder(n + 1, q + 1, 0, cap);
      Remainder(cap, 1, 0, cap);
    }
  }

  /** The slot just written is none of those the other retained entries are in. */
  lemma SlotsDiffer(n: nat, cap: nat, i: nat)
    requires 0 < i < cap && i <= n
    ensures (n - i) % cap != n % cap
  {
    var q, h := n / cap, n % cap;
    assert n == q * cap + h;
    if h >= i {
      Remainder(n - i, q, h - i, cap);
    } else {
      assert (q - 1) * cap == q * cap - cap;
      Remainder(n - i, q - 1, h - i + cap, cap);
    }
  }

  /** A run that oversteps the limit: one entry when the count is first read, and three more before it is read for
      the last time, turn a limit of two into an answer of four. */
  method LimitCanBeExceeded(e: Entry) returns (out: seq<Entry>)
    ensures out == [e, e, e, e]
  {
    var r := new Recorder(4, e);
    r.Record(e);
    var c1, c2 := r.count, r.count;
    r.Record(e);
    r.Record(e);
    r.Record(e);
    out := r.Recent(2, c1, c2, r.count);
  }
}
