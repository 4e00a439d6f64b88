/** Constants of libs/common/src/gex_common/config.py and the values that travel between components. */
module Config {

  const RETRY_BACKOFFS_MS: seq<nat> := [1000, 4000, 16000]
  const DISTRIBUTOR_MAX_RETRIES: int := 3
  const VALID_GATEWAYS: set<string> := {"grummer", "lous"}
  const GATEWAY_GRUMMER: string := "grummer"
  const EVENT_ORDER_APPROVED: string := "order.approved"

  datatype Channel = SMS | EMAIL | CALL_CENTER | WHATSAPP

  /** The order in which distribution messages are published. */
  const CHANNELS: seq<Channel> := [SMS, EMAIL, CALL_CENTER, WHATSAPP]

  datatype PaymentStatus = Approved | Declined | Awaiting | Refunded

  /** UUIDs: 128-bit numbers that are only generated and compared. */
  type Id = int

  datatype Contact = Contact(firstName: string, lastName: string, phone: string, country: string)

  /** The columns of `orders` that a repeated order refreshes. */
  datatype Sale = Sale(productId: string, productName: string, niche: string, quantity: int,
                       amountUsd: real, paymentMethod: string, status: PaymentStatus)

  /** A payload that passed schema validation. */
  datatype Payload = Payload(transactionId: string, transactionTime: int, event: string,
                             email: string, contact: Contact, sale: Sale)

  /** `LeadReceivedMessage`: what travels on `lead.received`. */
  datatype LeadMsg = LeadMsg(eventId: Id, gateway: string, payload: Payload)

  /** The natural key of an event: the unique index of `processed_events`. */
  datatype Key = Key(gateway: string, transactionId: string, event: string)

  function KeyOf(m: LeadMsg): Key {
    Key(m.gateway, m.payload.transactionId, m.payload.event)
  }

  /** The routing test that decides whether a valid payload is published. */
  predicate IsApproved(p: Payload) {
    p.event == EVENT_ORDER_APPROVED && p.sale.status == Approved
  }

  function Sum(s: seq<nat>): nat {
    if s == [] then 0 else Sum(s[..|s| - 1]) + s[|s| - 1]
  }

  lemma {:induction false} SumPrefix(s: seq<nat>, k: nat)
    requires k <= |s|
    ensures Sum(s[..k]) <= Sum(s)
    ensures k < |s| ==> Sum(s[..k + 1]) == Sum(s[..k]) + s[k]
    decreases |s|
  {
    if k < |s| {
      assert s[..k + 1][..k] == s[..k];
      SumPrefix(s[..|s| - 1], k);
      assert s[..|s| - 1][..k] == s[..k];
    } else {
      assert s[..k] == s;
    }
  }
}
