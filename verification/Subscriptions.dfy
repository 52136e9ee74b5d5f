/** A client's BLOB subscriptions, and with them what the server sends it. */
module Subscriptions {
  import opened Wire
  import opened Encoding
  import opened RoundTrip
  import opened Views
  import opened Mirror
  import opened LateJoiner
  import opened Waiting
  import Grammar
  import Writing

  datatype Policy = Never | Also | Only

  function ParsePolicy(s: string): Policy {
    match Lower(TrimSpace(s))
    case "also" => Also
    case "only" => Only
    case _ => Never
  }

  /** The most specific of a property's, its device's and the global policy. */
  function PolicyFor(policy: map<string, Policy>, device: string, name: string): Policy {
    if MapKey(device, name) in policy then policy[MapKey(device, name)]
    else if MapKey(device, "") in policy then policy[MapKey(device, "")]
    else if MapKey("", "") in policy then policy[MapKey("", "")]
    else Never
  }

  /** The policies after an element from the client. */
  function Told(policy: map<string, Policy>, el: Element): map<string, Policy> {
    if el.kind == KindEnableBLOB then policy[MapKey(el.device, el.name) := ParsePolicy(el.message)] else policy
  }

  /** Whether a client with these policies is sent an element. */
  predicate Wanted(policy: map<string, Policy>, el: Element) {
    var p := PolicyFor(policy, el.device, el.name);
    if el.kind == KindDel then true
    else if el.vtype == Blob && (el.kind == KindSet || el.kind == KindDef) then el.kind == KindDef || p != Never
    else p != Only
  }

  class Client {
    var policy: map<string, Policy>

    constructor ()
      ensures policy == map[]
    {
      policy := map[];
    }

    method SetPolicy(device: string, name: string, p: Policy)
      modifies this
      ensures policy == old(policy)[MapKey(device, name) := p]
      ensures PolicyFor(policy, device, name) == p
    {
      policy := policy[MapKey(device, name) := p];
    }

    /** What the client says about its subscriptions, of all that it says. */
    method Take(el: Element)
      modifies this
      ensures policy == Told(old(policy), el)
    {
      if el.kind == KindEnableBLOB {
        SetPolicy(el.device, el.name, ParsePolicy(el.message));
      }
    }

    /** The first of three keys that is there: the property's, the device's, the global one. */
    method Lookup(device: string, name: string) returns (p: Policy)
      ensures p == PolicyFor(policy, device, name)
      ensures MapKey(device, name) in policy ==> p == policy[MapKey(device, name)]
      ensures MapKey(device, name) !in policy && MapKey(device, "") in policy ==> p == policy[MapKey(device, "")]
      ensures MapKey(device, name) !in policy && MapKey(device, "") !in policy && MapKey("", "") in policy ==>
                p == policy[MapKey("", "")]
      ensures MapKey(device, name) !in policy && MapKey(device, "") !in policy && MapKey("", "") !in policy ==>
                p == Never
    {
      var keys := [MapKey(device, name), MapKey(device, ""), MapKey("", "")];
      for k := 0 to 3
        invariant forall j :: 0 <= j < k ==> keys[j] !in policy
      {
        if keys[k] in policy {
          assert (k == 0 || keys[0] !in policy) && (k <= 1 || keys[1] !in policy);
          return policy[keys[k]];
        }
      }
      assert keys[0] !in policy && keys[1] !in policy && keys[2] !in policy;
      return Never;
    }

    /** Under Only a client gets deletions, and definitions and updates of BLOB vectors;
        under Also everything; under Never everything but BLOB updates. */
    method Wants(el: Element) returns (r: bool)
      ensures r == Wanted(policy, el)
      ensures PolicyFor(policy, el.device, el.name) == Only ==>
                (r <==> el.kind == KindDel || (el.vtype == Blob && (el.kind == KindDef || el.kind == KindSet)))
      ensures PolicyFor(policy, el.device, el.name) == Also ==> r
      ensures PolicyFor(policy, el.device, el.name) == Never ==> (r <==> !(el.vtype == Blob && el.kind == KindSet))
    {
      if el.kind == KindDel {
        return true;
      }
      var isBlob := el.vtype == Blob && (el.kind == KindSet || el.kind == KindDef);
      var p := Lookup(el.device, el.name);
      if isBlob {
        return el.kind == KindDef || p != Never;
      }
      return p != Only;
    }
  }

  /** A policy for one property says nothing about another, NUL bytes aside. */
  lemma PolicyLocal(policy: map<string, Policy>, device: string, name: string, p: Policy, d: string, n: string)
    requires NoNul(device) && NoNul(d) && NoNul(name) && NoNul(n) && name != "" && (d, n) != (device, name)
    ensures PolicyFor(policy[MapKey(device, name) := p], d, n) == PolicyFor(policy, d, n)
  {
    if MapKey(d, n) == MapKey(device, name) {
      KeyInjective(d, n, device, name);
      assert false;
    }
    if MapKey(d, "") == MapKey(device, name) {
      KeyInjective(d, "", device, name);
      assert false;
    }
    if MapKey("", "") == MapKey(device, name) {
      KeyInjective("", "", device, name);
      assert false;
    }
  }

  /** The modes as they are spelled; whatever else is said means Never. */
  lemma ModesParse(s: string)
    ensures ParsePolicy("Never") == Never && ParsePolicy("Also") == Also && ParsePolicy("Only") == Only
    ensures Lower(TrimSpace(s)) !in {"also", "only"} ==> ParsePolicy(s) == Never
  {
    TrimSpacePlain("Never");
    TrimSpacePlain("Also");
    TrimSpacePlain("Only");
    assert Lower("Also") == "also" && Lower("Only") == "only" && Lower("Never") == "never";
  }

  /** From a writer's enableBLOB, over the wire, to the client's policies: the mode is the
      policy of every property of the device that has none of its own. */
  lemma EnableArrives(
      cfg: Grammar.Config, device: string, mode: string, unknown: nat, sunk: seq<Grammar.Delivery>, tail: string,
      policy: map<string, Policy>, prop: string)
    requires |device| <= MAX_TOKEN && |mode| <= MAX_TOKEN
    ensures var r := Grammar.Next(cfg, Writing.EnableText(device, mode) + tail, unknown, sunk);
            && r.Done? && r.rest == "\n" + tail
            && var after := Told(policy, r.value.el);
               && after == policy[MapKey(device, "") := ParsePolicy(mode)]
               && (MapKey(device, prop) !in policy ==> PolicyFor(after, device, prop) == ParsePolicy(mode))
  {
    hide Grammar.Next, Writing.EnableText, ParsePolicy, MapKey;
    Writing.EnableReads(cfg, device, mode, unknown, sunk, tail);
  }

  predicate NoOnly(policy: map<string, Policy>) {
    forall k :: k in policy ==> policy[k] != Only
  }

  /** A client that never asked for BLOBs only is sent everything a server can say, but
      BLOB updates it did not subscribe to: what a joiner needs. */
  lemma NoOnlyJoins(policy: map<string, Policy>, el: Element, blobs: Payloads)
    requires NoOnly(policy) && Parsed(el) && (IsServerKind(el.kind) ==> Sendable(Outgoing(el, blobs)))
    ensures EventOk(false, Event(el, blobs, IsServerKind(el.kind) && Wanted(policy, el)))
  {
    hide Parsed, Sendable, MapKey;
  }

  /** Subscribed to everything, and nowhere otherwise. */
  predicate AlsoAll(policy: map<string, Policy>) {
    MapKey("", "") in policy && forall k :: k in policy ==> policy[k] == Also
  }

  /** A client that asked for BLOBs along with everything else is sent everything. */
  lemma AlsoAllJoins(policy: map<string, Policy>, el: Element, blobs: Payloads)
    requires AlsoAll(policy) && Parsed(el) && (IsServerKind(el.kind) ==> Sendable(Outgoing(el, blobs)))
    ensures NoOnly(policy) && EventOk(true, Event(el, blobs, IsServerKind(el.kind) && Wanted(policy, el)))
  {
    hide Parsed, Sendable, MapKey;
  }

  /** It is sent every definition of a replay. */
  lemma NoOnlyReplays(policy: map<string, Policy>, v: Vec)
    requires NoOnly(policy)
    ensures Wanted(policy, VectorToElement(v))
  {
    hide MapKey;
  }

  /** One that asked for BLOBs only, of everything, is left without its other properties. */
  lemma OnlyMisses(el: Element)
    requires el.kind == KindDef && el.vtype != Blob
    ensures !Wanted(map[MapKey("", "") := Only], el)
  {
    assert MapKey("", "") in map[MapKey("", "") := Only];
  }
}
