/**
 * The shared stores of webhook delivery: what Valkey and the session table hold, and each store command as one
 * function.
 */
module Handoff {
  type Id = string

  /** What the producer wrote under an id's payload key; it never changes, but it may be gone when it is read. */
  datatype Payload = Malformed | Envelope(webhookURL: string, expiresAt: int)

  /** The expiring attempt counter: redis answers nil from `until` on. */
  datatype Counter = Counter(n: nat, until: int)

  datatype WebhookState = Pending | Delivering | Delivered | Failed

  /**
   * `queue` is the redis list, left end first. `retry` is the ZSET, `webhook` the webhook_state column (absent means
   * pending), `delivered` and `failed` are the two labels of the outcome metric.
   */
  datatype Store = Store(
    queue: seq<Id>,
    retry: map<Id, int>,
    counters: map<Id, Counter>,
    webhook: map<Id, WebhookState>,
    delivered: nat,
    failed: nat)

  const EMPTY := Store([], map[], map[], map[], 0, 0)

  function LPush(st: Store, id: Id): Store {
    st.(queue := [id] + st.queue)
  }

  /** What RPOP leaves behind; it returns the last element. */
  function RPop(st: Store): Store
    requires st.queue != []
  {
    st.(queue := st.queue[..|st.queue| - 1])
  }

  function RightEnd(st: Store): Id
    requires st.queue != []
  {
    st.queue[|st.queue| - 1]
  }

  function ZAdd(st: Store, id: Id, score: int): Store {
    st.(retry := st.retry[id := score])
  }

  function ZRem(st: Store, id: Id): Store {
    st.(retry := st.retry - {id})
  }

  function SetCounter(st: Store, id: Id, n: nat, until: int): Store {
    st.(counters := st.counters[id := Counter(n, until)])
  }

  /** GET of the counter; nil, also after its expiry, reads as 0. */
  function GetCounter(st: Store, id: Id, now: int): nat {
    if id in st.counters && now < st.counters[id].until then st.counters[id].n else 0
  }

  function SetWebhook(st: Store, id: Id, w: WebhookState): Store {
    st.(webhook := st.webhook[id := w])
  }

  function WebhookOf(st: Store, id: Id): WebhookState {
    if id in st.webhook then st.webhook[id] else Pending
  }

  function CountDelivered(st: Store): Store {
    st.(delivered := st.delivered + 1)
  }

  function CountFailed(st: Store): Store {
    st.(failed := st.failed + 1)
  }
}
