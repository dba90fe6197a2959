/** The handler's sender registry (`handler.m`): one bounded queue per sender
    address, plus an optional catch-all entry under the key `"*"`. A queue is
    represented by the addresses buffered in it. */
module Registry {
  import opened Wrappers
  import opened BoundedQueue

  /** Key of the catch-all entry (`defaultKey`). */
  const DefaultKey: string := "*"

  /** Each registered sender address with the addresses queued for it. */
  type Senders = map<string, Queue>

  datatype RegisterError = AlreadyRegistered(sender: string)

  /** No queue holds more than the channel capacity. */
  ghost predicate WellFormed(reg: Senders) {
    forall k :: k in reg ==> |reg[k]| <= Capacity
  }

  /** `Register`: a sender that already has a queue is a fatal configuration
      error (a panic in the handler); otherwise exactly one new, empty queue
      is added. */
  function Register(reg: Senders, sender: string): (r: Result<Senders, RegisterError>)
    ensures r.Failure? <==> sender in reg
    ensures r.Failure? ==> r.error == AlreadyRegistered(sender)
    ensures r.Success? ==>
      && r.value.Keys == reg.Keys + {sender}
      && r.value[sender] == []
      && (forall k :: k in reg ==> r.value[k] == reg[k])
    ensures r.Success? && WellFormed(reg) ==> WellFormed(r.value)
  {
    if sender in reg then Failure(AlreadyRegistered(sender))
    else Success(reg[sender := []])
  }

  /** No address occurs twice. */
  ghost predicate Distinct(s: seq<string>) {
    forall i, j :: 0 <= i < j < |s| ==> s[i] != s[j]
  }

  /** Startup: register every configured sender in turn, stopping at the
      first failure. On success every earlier queue is kept, every listed
      sender has an empty queue and nothing else is added; a failure names a
      listed sender. */
  function RegisterAll(reg: Senders, senders: seq<string>): (r: Result<Senders, RegisterError>)
    ensures r.Success? ==> forall k :: k in reg ==> k in r.value && r.value[k] == reg[k]
    ensures r.Success? ==> forall i :: 0 <= i < |senders| ==> senders[i] in r.value && r.value[senders[i]] == []
    ensures r.Success? ==> forall k :: k in r.value ==> k in reg || k in senders
    ensures r.Failure? ==> r.error.sender in senders
    decreases |senders|
  {
    if senders == [] then Success(reg)
    else match Register(reg, senders[0])
      case Failure(e) => Failure(e)
      case Success(next) =>
        assert forall i :: 1 <= i < |senders| ==> senders[i] == senders[1..][i - 1];
        RegisterAll(next, senders[1..])
  }

  /** Registering a list of senders succeeds exactly when no sender repeats
      and none was already present. */
  lemma {:induction false} RegisterAllSucceedsIff(reg: Senders, senders: seq<string>)
    ensures RegisterAll(reg, senders).Success? <==>
      Distinct(senders) && forall i :: 0 <= i < |senders| ==> senders[i] !in reg
    decreases |senders|
  {
    if senders != [] {
      var s0, rest := senders[0], senders[1..];
      assert forall i :: 1 <= i < |senders| ==> senders[i] == rest[i - 1];
      if s0 !in reg {
        var next := reg[s0 := []];
        RegisterAllSucceedsIff(next, rest);
        if Distinct(senders) && forall i :: 0 <= i < |senders| ==> senders[i] !in reg {
          forall i | 0 <= i < |rest| ensures rest[i] !in next {
            assert senders[i + 1] != senders[0];
          }
        }
        if RegisterAll(reg, senders).Success? {
          forall i, j | 0 <= i < j < |senders| ensures senders[i] != senders[j] {
            if i > 0 {
              assert rest[i - 1] != rest[j - 1];
            }
          }
        }
      }
    }
  }

  /** Start-up with a validated configuration: registering its keys, each
      once in any order, never fails, and leaves exactly those senders with
      empty queues. */
  lemma StartupRegistry<V>(config: map<string, V>, order: seq<string>)
    requires Distinct(order)
    requires forall k :: k in config <==> k in order
    ensures RegisterAll(map[], order).Success?
    ensures RegisterAll(map[], order).value.Keys == config.Keys
    ensures forall k :: k in config ==> RegisterAll(map[], order).value[k] == []
    ensures WellFormed(RegisterAll(map[], order).value)
  {
    RegisterAllSucceedsIff(map[], order);
    var out := RegisterAll(map[], order).value;
    forall k | k in config ensures k in out && out[k] == [] {
      var i :| 0 <= i < |order| && order[i] == k;
    }
  }

  /** Sender resolution: the sender's own queue if it has one, otherwise the
      catch-all queue if configured, otherwise none. */
  function Resolve(reg: Senders, sender: string): (r: Option<string>)
    ensures r.Some? ==> r.value in reg
    ensures sender in reg ==> r == Some(sender)
    ensures sender !in reg && DefaultKey in reg ==> r == Some(DefaultKey)
    ensures r.None? <==> sender !in reg && DefaultKey !in reg
  {
    if sender in reg then Some(sender)
    else if DefaultKey in reg then Some(DefaultKey)
    else None
  }
}
