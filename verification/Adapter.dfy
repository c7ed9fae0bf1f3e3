/** The panel adapter's bounded retry loop, and the int64 arithmetic of its expiry. */
module Adapter {
  import opened Schema

  /** A product of int64s as Go computes it. */
  function Wrap64(n: int): int {
    var m := n % TWO_TO_64;
    if m > MAX_INT64 then m - TWO_TO_64 else m
  }

  /** It is an int64, and off by a multiple of 2^64. */
  lemma Wraps(n: int)
    ensures IsInt64(Wrap64(n)) && (n - Wrap64(n)) % 0x1_0000_0000_0000_0000 == 0
  {
  }

  const NANO := 1_000_000_000
  const DAY_NANOS := 86_400 * NANO

  /** time.Now().Add(time.Duration(days) * 24 * time.Hour).Unix(), with the clock in nanoseconds. */
  function ExpiryUnix(now: int, days: int): int {
    (now + Wrap64(days * DAY_NANOS)) / NANO
  }

  /** Days are counted exactly up to 106751 of them either way, and for no longer duration. */
  lemma ExpiryExact(now: int, days: int)
    ensures ExpiryUnix(now, days) == now / NANO + days * 86_400 <==> -106_751 <= days <= 106_751
  {
  }

  datatype ProvisionRequest = ProvisionRequest(email: string, uuid: string, days: int, trafficGb: int)
  datatype CreateRequest = CreateRequest(email: string, uuid: string, expiryUnix: int, trafficGb: int)
  datatype ProvisionResponse = ProvisionResponse(uuid: string, expiresAt: int)

  /** The panel's HTTP client: what each call sent, and what came back of it. */
  class Client {
    var sent: seq<CreateRequest>
    var replies: seq<Option<ProvisionResponse>>

    constructor ()
      ensures Valid() && sent == []
    {
      sent, replies := [], [];
    }

    ghost predicate Valid()
      reads this
    {
      |sent| == |replies|
    }

    method CreateClient(request: CreateRequest) returns (reply: Option<ProvisionResponse>)
      requires Valid()
      modifies this
      ensures Valid()
      ensures sent == old(sent) + [request] && replies == old(replies) + [reply]
    {
      var answers: bool := *;
      var uuid: string := *;
      var expiresAt: int := *;
      reply := if answers then Some(ProvisionResponse(uuid, expiresAt)) else None;
      sent, replies := sent + [request], replies + [reply];
    }
  }

  class MultiPanelAdapter {
    const client: Client
    const retries: nat := 3

    constructor (client: Client)
      ensures this.client == client
    {
      this.client := client;
    }

    /** Up to three attempts with one UUID and one expiry, stopping at the first that the panel
        accepts, whose answer is returned as it came. */
    method Provision(req: ProvisionRequest, now: int) returns (r: Option<ProvisionResponse>)
      requires client.Valid()
      modifies client
      ensures client.Valid()
      ensures old(client.sent) <= client.sent && old(client.replies) <= client.replies
      ensures var n := |client.sent| - |old(client.sent)|;
              && 1 <= n <= 3
              && (r.None? ==> n == 3)
              && r == client.replies[|client.replies| - 1]
      ensures forall i :: |old(client.sent)| <= i < |client.sent| ==>
                client.sent[i] == CreateRequest(req.email, req.uuid, ExpiryUnix(now, req.days), req.trafficGb)
      ensures forall i :: |old(client.sent)| <= i < |client.sent| - 1 ==> client.replies[i].None?
    {
      var request := CreateRequest(req.email, req.uuid, ExpiryUnix(now, req.days), req.trafficGb);
      for i := 0 to retries
        invariant client.Valid() && |client.sent| == |old(client.sent)| + i
        invariant old(client.sent) <= client.sent && old(client.replies) <= client.replies
        invariant forall j :: |old(client.sent)| <= j < |client.sent| ==>
          client.sent[j] == request && client.replies[j].None?
      {
        r := client.CreateClient(request);
        if r.Some? {
          return r;
        }
      }
      return None;
    }
  }
}
