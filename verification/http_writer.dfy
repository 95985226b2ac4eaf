/** A stand-in for Go's `http.ResponseWriter` that records, in order, every
    call the handlers make on it. Bodies are kept as values, not bytes. */
module HttpWriter {
  import opened Wrappers

  datatype Event<Body> =
    | HeaderSet(key: string, value: string)   // w.Header().Set(key, value)
    | StatusWritten(code: int)                // w.WriteHeader(code)
    | BodyWritten(body: Body)                 // w.Write(marshalled body)

  class ResponseWriter<Body> {
    /** Every call made on this writer so far, oldest first. */
    var trace: seq<Event<Body>>

    constructor ()
      ensures trace == []
    {
      trace := [];
    }

    method SetHeader(key: string, value: string)
      modifies this
      ensures trace == old(trace) + [HeaderSet(key, value)]
    {
      trace := trace + [HeaderSet(key, value)];
    }

    method WriteHeader(code: int)
      modifies this
      ensures trace == old(trace) + [StatusWritten(code)]
    {
      trace := trace + [StatusWritten(code)];
    }

    method Write(body: Body)
      modifies this
      ensures trace == old(trace) + [BodyWritten(body)]
    {
      trace := trace + [BodyWritten(body)];
    }
  }

  /** How many calls at the head of `trace` are header sets: the calls made
      before the response is committed. */
  function HeaderPrefix<Body>(trace: seq<Event<Body>>): (n: nat)
    ensures n <= |trace|
    ensures forall i :: 0 <= i < n ==> trace[i].HeaderSet?
    ensures n < |trace| ==> !trace[n].HeaderSet?
  {
    if trace == [] || !trace[0].HeaderSet? then 0 else 1 + HeaderPrefix(trace[1..])
  }

  /** The status line a trace sends under net/http's documented rule: the
      first `WriteHeader` fixes it, and a `Write` that comes before any
      `WriteHeader` sends 200 implicitly. Later `WriteHeader` calls change
      nothing. `None` while neither has happened. Every code is taken as
      final: the 1xx informational codes, which net/http sends without fixing
      the status, are not modelled (the handlers write none). */
  function CommittedStatus<Body>(trace: seq<Event<Body>>): (status: Option<int>)
    ensures status.None? <==> forall i :: 0 <= i < |trace| ==> trace[i].HeaderSet?
    ensures var n := HeaderPrefix(trace);
      n < |trace| ==> status == Some(if trace[n].StatusWritten? then trace[n].code else 200)
  {
    if trace == [] then None
    else match trace[0]
      case HeaderSet(_, _) => CommittedStatus(trace[1..])
      case StatusWritten(code) => Some(code)
      case BodyWritten(_) => Some(200)
  }

  /** The headers that go out with the status line: those set before the
      first `WriteHeader` or `Write`, a later `Set` of a key replacing an
      earlier one. Headers set afterwards are not sent, so only keys the
      trace sets can go out, each key set before the commit goes out with the
      last value set for it, and nothing goes out when the first call is a
      `WriteHeader` or `Write`. */
  function HeadersAtCommit<Body>(trace: seq<Event<Body>>): (h: map<string, string>)
    ensures forall k :: k in h ==> exists i :: 0 <= i < |trace| && trace[i].HeaderSet? && trace[i].key == k
    ensures forall i :: 0 <= i < HeaderPrefix(trace) && LastSetBeforeCommit(trace, i) ==>
      trace[i].key in h && h[trace[i].key] == trace[i].value
    ensures trace != [] && !trace[0].HeaderSet? ==> h == map[]
  {
    HeadersBeforeValues(trace, map[]);
    HeadersBefore(trace, map[])
  }

  /** The header set at position `i` is the last one for its key before the
      commit. */
  predicate LastSetBeforeCommit<Body>(trace: seq<Event<Body>>, i: nat)
    requires i < HeaderPrefix(trace)
  {
    forall j :: i < j < HeaderPrefix(trace) ==> trace[j].key != trace[i].key
  }

  /** The headers in force when the response is committed, starting from
      `acc`: the leading header sets applied in order. */
  function HeadersBefore<Body>(trace: seq<Event<Body>>, acc: map<string, string>): (h: map<string, string>)
    ensures forall k :: k in h ==> k in acc || exists i :: 0 <= i < |trace| && trace[i].HeaderSet? && trace[i].key == k
  {
    if trace == [] then acc
    else match trace[0]
      case HeaderSet(k, v) => HeadersBefore(trace[1..], acc[k := v])
      case _ => acc
  }

  /** A key the committed prefix does not set keeps its earlier value, and a
      key the prefix sets ends with the last value set for it. */
  lemma {:induction false} HeadersBeforeValues<Body>(trace: seq<Event<Body>>, acc: map<string, string>)
    ensures forall k :: k in acc && (forall j :: 0 <= j < HeaderPrefix(trace) ==> trace[j].key != k) ==>
      k in HeadersBefore(trace, acc) && HeadersBefore(trace, acc)[k] == acc[k]
    ensures forall i :: 0 <= i < HeaderPrefix(trace) && LastSetBeforeCommit(trace, i) ==>
      trace[i].key in HeadersBefore(trace, acc) && HeadersBefore(trace, acc)[trace[i].key] == trace[i].value
    decreases |trace|
  {
    if trace != [] && trace[0].HeaderSet? {
      var k0, v0 := trace[0].key, trace[0].value;
      var rest := trace[1..];
      var acc' := acc[k0 := v0];
      HeadersBeforeValues(rest, acc');
      var n := HeaderPrefix(trace);
      assert HeaderPrefix(rest) == n - 1;
      var h := HeadersBefore(trace, acc);
      assert h == HeadersBefore(rest, acc');
      forall k | k in acc && (forall j :: 0 <= j < n ==> trace[j].key != k)
        ensures k in h && h[k] == acc[k]
      {
        assert trace[0].key != k;
        forall j | 0 <= j < n - 1
          ensures rest[j].key != k
        {
          assert rest[j] == trace[j + 1];
        }
      }
      forall i | 0 <= i < n && LastSetBeforeCommit(trace, i)
        ensures trace[i].key in h && h[trace[i].key] == trace[i].value
      {
        if i == 0 {
          forall j | 0 <= j < n - 1
            ensures rest[j].key != k0
          {
            assert rest[j] == trace[j + 1];
          }
        } else {
          assert rest[i - 1] == trace[i];
          forall j | i - 1 < j < n - 1
            ensures rest[j].key != rest[i - 1].key
          {
            assert rest[j] == trace[j + 1];
          }
          assert LastSetBeforeCommit(rest, i - 1);
        }
      }
    }
  }
}
