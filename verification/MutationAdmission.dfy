/**
 The process-wide mutation admission controller: slots, bytes, tokens and waiters.
 */
module MutationAdmission {
  import opened Basics

  const MAX_SAFE_INTEGER := 9007199254740991

  datatype Options = Options(maxOutstanding: nat, maxReservationBytes: nat, maxOutstandingBytes: nat)

  predicate Usable(o: Options) {
    && 0 < o.maxOutstanding <= MAX_SAFE_INTEGER && 0 < o.maxReservationBytes <= MAX_SAFE_INTEGER
    && 0 < o.maxOutstandingBytes <= MAX_SAFE_INTEGER
  }

  /** `positiveInteger`: a parsed positive number, else the fallback; anything unsafe throws. */
  function PositiveInteger(parsed: Option<int>, fallback: int): (r: Option<nat>)
    ensures forall n: nat :: r == Some(n) <==>
      1 <= n < 9007199254740992 && n == if parsed.Some? && parsed.value >= 1 then parsed.value else fallback
  {
    var n := if parsed.Some? && parsed.value > 0 then parsed.value else fallback;
    if 0 < n <= MAX_SAFE_INTEGER then Some(n) else None
  }

  /** `resolveMutationAdmissionOptions`: the byte limit defaults to every slot at its largest. */
  function ResolveOptions(slots: Option<int>, reservation: Option<int>, bytes: Option<int>): Option<Options> {
    var maxOutstanding, maxReservation := PositiveInteger(slots, 256), PositiveInteger(reservation, 2097152);
    if maxOutstanding.None? || maxReservation.None? then None
    else
      var maxBytes := PositiveInteger(bytes, maxOutstanding.value * maxReservation.value);
      if maxBytes.None? then None
      else Some(Options(maxOutstanding.value, maxReservation.value, maxBytes.value))
  }

  /** The byte limit was derived, not configured. */
  predicate Derived(o: Options) {
    o.maxOutstandingBytes == o.maxOutstanding * o.maxReservationBytes
  }

  /** Resolved limits are usable, and the byte limit is derived unless a positive one was configured. */
  lemma ResolvedOptions(slots: Option<int>, reservation: Option<int>, bytes: Option<int>)
    requires ResolveOptions(slots, reservation, bytes).Some?
    ensures
      var o := ResolveOptions(slots, reservation, bytes).value;
      && Usable(o)
      && o.maxOutstanding == (if slots.Some? && slots.value >= 1 then slots.value else 256)
      && o.maxReservationBytes == (if reservation.Some? && reservation.value >= 1 then reservation.value else 2 * 1024 * 1024)
      && (bytes.Some? && bytes.value >= 1 ==> o.maxOutstandingBytes == bytes.value)
    ensures bytes.None? || bytes.value <= 0 ==> Derived(ResolveOptions(slots, reservation, bytes).value)
  {
  }

  /** Identity is the position in the sequence of grants, as unique as the source's symbol. */
  datatype Token = Token(id: nat, bytes: nat)

  // ---------------------------------------------------------------- summing live tokens

  ghost function Bytes(s: set<Token>): nat {
    if s == {} then 0 else var t :| t in s; t.bytes + Bytes(s - {t})
  }

  lemma {:induction false} BytesRemove(s: set<Token>, t: Token)
    requires t in s
    ensures Bytes(s) == t.bytes + Bytes(s - {t})
  {
    var u :| u in s && Bytes(s) == u.bytes + Bytes(s - {u});
    if u != t {
      BytesRemove(s - {u}, t);
      BytesRemove(s - {t}, u);
      assert s - {u} - {t} == s - {t} - {u};
    }
  }

  lemma BytesAdd(s: set<Token>, t: Token)
    requires t !in s
    ensures Bytes(s + {t}) == Bytes(s) + t.bytes
  {
    BytesRemove(s + {t}, t);
    assert s + {t} - {t} == s;
  }

  /** Every live token within the reservation ceiling bounds their sum. */
  lemma {:induction false} BytesBounded(s: set<Token>, each: nat)
    requires forall t :: t in s ==> t.bytes <= each
    ensures Bytes(s) <= |s| * each
  {
    if s != {} {
      var t :| t in s;
      BytesRemove(s, t);
      BytesBounded(s - {t}, each);
      OneMore(|s|, each);
    }
  }

  lemma OneMore(n: nat, r: nat)
    requires n > 0
    ensures n * r == (n - 1) * r + r
  {
  }

  /** With a derived byte limit a free slot always has room for one more in-size request. */
  lemma FreeSlotHasRoom(s: set<Token>, o: Options, bytes: nat)
    requires Derived(o) && |s| < o.maxOutstanding && bytes <= o.maxReservationBytes
    requires forall t :: t in s ==> t.bytes <= o.maxReservationBytes
    ensures Bytes(s) + bytes <= o.maxOutstandingBytes
  {
    BytesBounded(s, o.maxReservationBytes);
    var r := o.maxReservationBytes;
    assert (|s| + 1) * r <= o.maxOutstanding * r by { Multiply(|s| + 1, o.maxOutstanding, r); }
  }

  lemma Multiply(a: nat, b: nat, r: nat)
    requires a <= b
    ensures a * r <= b * r
  {
  }

  /** Live and returned tokens are apart, were granted in turn and are within the ceiling. */
  ghost predicate Issued(live: set<Token>, spent: set<Token>, grants: nat, each: nat) {
    && live !! spent
    && (forall t :: t in live || t in spent ==> t.id < grants && t.bytes <= each)
  }

  lemma GiveBack(live: set<Token>, spent: set<Token>, grants: nat, each: nat, t: Token)
    requires Issued(live, spent, grants, each) && t in live
    ensures Issued(live - {t}, spent + {t}, grants, each)
    ensures |live - {t}| == |live| - 1 && |spent + {t}| == |spent| + 1
  {
  }

  // ---------------------------------------------------------------- the controller

  datatype Answer = Granted(token: Token) | Refused | Throws

  class Controller {
    const options: Options
    var outstanding: nat
    var outstandingBytes: int
    var version: nat
    var closed: bool
    var acquired: nat
    var released: nat
    var rejected: nat
    var oversized: nat
    var highOutstanding: nat
    var highBytes: int
    var waiters: set<nat>
    var tokens: set<Token>
    /** Tokens already given back. */
    ghost var spent: set<Token>

    ghost predicate Valid()
      reads this
    {
      && Usable(options)
      && outstanding == |tokens| && outstandingBytes == Bytes(tokens)
      && outstanding <= options.maxOutstanding && outstandingBytes <= options.maxOutstandingBytes
      && acquired == released + outstanding && released == |spent|
      && outstanding <= highOutstanding <= options.maxOutstanding
      && outstandingBytes <= highBytes <= options.maxOutstandingBytes
      && oversized <= rejected
      && Issued(tokens, spent, acquired, options.maxReservationBytes)
      && (closed ==> waiters == {})
    }

    constructor (options: Options)
      requires Usable(options)
      ensures Valid() && !closed && tokens == {} && spent == {} && acquired == 0 && version == 0 && waiters == {}
    {
      this.options := options;
      outstanding, outstandingBytes, version, closed := 0, 0, 0, false;
      acquired, released, rejected, oversized := 0, 0, 0, 0;
      highOutstanding, highBytes := 0, 0;
      waiters, tokens, spent := {}, {}, {};
    }

    /** The default: limits from the environment. */
    constructor FromEnvironment(slots: Option<int>, reservation: Option<int>, bytes: Option<int>)
      requires ResolveOptions(slots, reservation, bytes).Some?
      ensures Valid() && !closed && tokens == {} && spent == {} && acquired == 0 && version == 0 && waiters == {}
      ensures options == ResolveOptions(slots, reservation, bytes).value
      ensures bytes.None? || bytes.value <= 0 ==> Derived(options)
    {
      ResolvedOptions(slots, reservation, bytes);
      options := ResolveOptions(slots, reservation, bytes).value;
      outstanding, outstandingBytes, version, closed := 0, 0, 0, false;
      acquired, released, rejected, oversized := 0, 0, 0, 0;
      highOutstanding, highBytes := 0, 0;
      waiters, tokens, spent := {}, {}, {};
    }

    /** Nothing but the refusal counters moves. */
    twostate predicate OnlyCounted()
      reads this
    {
      && tokens == old(tokens) && spent == old(spent) && waiters == old(waiters) && version == old(version)
      && closed == old(closed) && acquired == old(acquired)
    }

    /** One slot and `requested` bytes (or the ceiling when none are named). */
    method TryAcquire(requested: Option<int>) returns (r: Answer)
      requires Valid()
      modifies this
      ensures Valid()
      ensures
        var bytes := PositiveInteger(requested, options.maxReservationBytes);
        && (r.Throws? <==> !old(closed) && bytes.None?)
        && (r.Granted? <==>
              && !old(closed) && bytes.Some? && bytes.value <= options.maxReservationBytes
              && old(outstanding) < options.maxOutstanding
              && old(outstandingBytes) + bytes.value <= options.maxOutstandingBytes)
        && (r.Granted? ==> r.token.bytes == bytes.value)
        && (Derived(options) && !old(closed) && bytes.Some? && bytes.value <= options.maxReservationBytes ==>
              (r.Refused? <==> old(outstanding) == options.maxOutstanding))
      ensures r.Granted? ==>
        && r.token !in old(tokens) && r.token !in old(spent) && tokens == old(tokens) + {r.token}
        && spent == old(spent) && waiters == old(waiters) && version == old(version) && closed == old(closed)
      ensures !r.Granted? ==> OnlyCounted()
      ensures rejected == old(rejected) + if r.Refused? then 1 else 0
    {
      hide Bytes, Derived;
      if closed {
        rejected := rejected + 1;
        return Refused;
      }
      var parsed := PositiveInteger(requested, options.maxReservationBytes);
      if parsed.None? { return Throws; }
      var bytes := parsed.value;
      if bytes > options.maxReservationBytes {
        rejected, oversized := rejected + 1, oversized + 1;
        return Refused;
      }
      if Derived(options) && outstanding < options.maxOutstanding { FreeSlotHasRoom(tokens, options, bytes); }
      if outstanding >= options.maxOutstanding || outstandingBytes + bytes > options.maxOutstandingBytes {
        rejected := rejected + 1;
        return Refused;
      }
      r := Grant(bytes);
    }

    /** A fresh token for a request that fits. */
    method Grant(bytes: nat) returns (r: Answer)
      requires Valid() && bytes <= options.maxReservationBytes
      requires outstanding < options.maxOutstanding && outstandingBytes + bytes <= options.maxOutstandingBytes
      modifies this`tokens, this`outstanding, this`outstandingBytes, this`acquired, this`highOutstanding, this`highBytes
      ensures Valid() && r.Granted? && r.token.bytes == bytes
      ensures r.token !in old(tokens) && r.token !in spent && tokens == old(tokens) + {r.token}
    {
      hide Bytes, Usable;
      var token := Token(acquired, bytes);
      BytesAdd(tokens, token);
      tokens := tokens + {token};
      outstanding, outstandingBytes, acquired := outstanding + 1, outstandingBytes + bytes, acquired + 1;
      highOutstanding := if highOutstanding > outstanding then highOutstanding else outstanding;
      highBytes := if highBytes > outstandingBytes then highBytes else outstandingBytes;
      return Granted(token);
    }

    /** Give a token back. A token that is not live changes nothing, so a second release is a no-op. */
    method Release(token: Token) returns (r: bool)
      requires Valid()
      modifies this`tokens, this`spent, this`outstanding, this`outstandingBytes, this`released, this`version, this`waiters
      ensures Valid()
      ensures r <==> token in old(tokens)
      ensures r ==>
        && tokens == old(tokens) - {token} && spent == old(spent) + {token}
        && waiters == {} && version == old(version) + 1 && released == old(released) + 1 && closed == old(closed)
      ensures !r ==> OnlyCounted() && released == old(released) && rejected == old(rejected)
    {
      hide Bytes, Issued, Usable;
      if token !in tokens { return false; }
      TakeBack(token);
      SignalChange();
      return true;
    }

    method TakeBack(token: Token)
      requires Valid() && token in tokens
      modifies this`tokens, this`spent, this`outstanding, this`outstandingBytes, this`released
      ensures Valid()
      ensures tokens == old(tokens) - {token} && spent == old(spent) + {token} && released == old(released) + 1
    {
      hide Bytes, Issued, Usable;
      BytesRemove(tokens, token);
      GiveBack(tokens, spent, acquired, options.maxReservationBytes, token);
      tokens, spent := tokens - {token}, spent + {token};
      outstanding, outstandingBytes, released := outstanding - 1, outstandingBytes - token.bytes, released + 1;
    }

    method SignalChange()
      modifies this`version, this`waiters
      ensures version == old(version) + 1 && waiters == {}
    {
      version := version + 1;
      waiters := {};
    }

    /** Wait only for a change that has not happened yet. */
    method WaitForChange(seen: nat, waiter: nat) returns (waits: bool)
      requires Valid()
      modifies this`waiters
      ensures Valid() && (waits <==> seen == version && !closed)
      ensures waiters == if waits then old(waiters) + {waiter} else old(waiters)
    {
      if seen != version || closed { return false; }
      waiters := waiters + {waiter};
      return true;
    }

    method Close()
      requires Valid()
      modifies this`closed, this`version, this`waiters
      ensures Valid() && closed && waiters == {} && version == old(version) + 1
    {
      closed := true;
      SignalChange();
    }
  }
}
