/** Classification of a transaction's outputs into the recipient output
    (paid to the trader's address) and the change output (any other
    address). Outputs without an address are skipped, and each side keeps
    the last output it saw. */
module Classification {
  import opened Wrappers
  import opened Transactions

  datatype Role = Recipient | Change

  /** The side an output falls on, or None for an output without address. */
  function RoleOf(o: TxOut, trader: Address): (r: Option<Role>)
    ensures r == None <==> o.address == None
    ensures r == Some(Recipient) <==> o.address == Some(trader)
  {
    match o.address
    case None => None
    case Some(a) => if a == trader then Some(Recipient) else Some(Change)
  }

  /** The index of the last output on side `role`, if there is one. */
  function LastWithRole(outs: seq<TxOut>, trader: Address, role: Role): (r: Option<nat>)
    ensures r.Some? ==>
              && r.value < |outs|
              && RoleOf(outs[r.value], trader) == Some(role)
              && forall j :: r.value < j < |outs| ==> RoleOf(outs[j], trader) != Some(role)
    ensures r.None? ==> forall j :: 0 <= j < |outs| ==> RoleOf(outs[j], trader) != Some(role)
    decreases |outs|
  {
    if |outs| == 0 then None
    else if RoleOf(outs[|outs| - 1], trader) == Some(role) then Some(|outs| - 1)
    else
      var front := outs[..|outs| - 1];
      assert forall j :: 0 <= j < |front| ==> front[j] == outs[j];
      LastWithRole(front, trader, role)
  }

  /** Address and amount recorded for side `role`: those of the last output
      on that side, or the initial empty address and zero. */
  function Picked(outs: seq<TxOut>, trader: Address, role: Role): (Address, nat)
  {
    match LastWithRole(outs, trader, role)
    case None => ("", 0)
    case Some(i) => (outs[i].address.value, outs[i].amount)
  }

  /** The four values the classification loop leaves behind. */
  datatype Split = Split(recipientAddress: Address, recipientAmount: nat,
                         changeAddress: Address, changeAmount: nat)

  /** The classification of a whole output list, as a function. */
  function Classified(outs: seq<TxOut>, trader: Address): Split
  {
    var (ra, rv) := Picked(outs, trader, Recipient);
    var (ca, cv) := Picked(outs, trader, Change);
    Split(ra, rv, ca, cv)
  }

  /** The source's loop: four locals, overwritten output by output. */
  method Classify(outs: seq<TxOut>, trader: Address) returns (s: Split)
    ensures s == Classified(outs, trader)
  {
    var recipientAddress, recipientAmount := "", 0;
    var changeAddress, changeAmount := "", 0;
    for i := 0 to |outs|
      invariant Split(recipientAddress, recipientAmount, changeAddress, changeAmount)
                == Classified(outs[..i], trader)
    {
      assert outs[..i + 1][..i] == outs[..i];
      match outs[i].address {
        case Some(addr) =>
          if addr == trader {
            recipientAddress, recipientAmount := addr, outs[i].amount;
          } else {
            changeAddress, changeAmount := addr, outs[i].amount;
          }
        case None =>
      }
    }
    assert outs[..|outs|] == outs;
    s := Split(recipientAddress, recipientAmount, changeAddress, changeAmount);
  }

  /** Last match wins: the output at `i` is picked for its side exactly when
      no later output is on the same side. */
  lemma LastMatchWins(outs: seq<TxOut>, trader: Address, role: Role, i: nat)
    requires i < |outs| && RoleOf(outs[i], trader) == Some(role)
    ensures Picked(outs, trader, role) == (outs[i].address.value, outs[i].amount)
            <== forall j :: i < j < |outs| ==> RoleOf(outs[j], trader) != Some(role)
  {
  }

  /** A side with no output on it keeps its initial empty address and zero. */
  lemma NoMatchKeepsDefaults(outs: seq<TxOut>, trader: Address, role: Role)
    ensures (forall j :: 0 <= j < |outs| ==> RoleOf(outs[j], trader) != Some(role))
            <==> Picked(outs, trader, role) == ("", 0) && LastWithRole(outs, trader, role).None?
  {
  }

  /** One more output on side `role` overwrites that side and leaves the
      other one as it was. */
  lemma AppendOverwrites(outs: seq<TxOut>, o: TxOut, trader: Address, role: Role, other: Role)
    requires RoleOf(o, trader) == Some(role) && other != role
    ensures Picked(outs + [o], trader, role) == (o.address.value, o.amount)
    ensures Picked(outs + [o], trader, other) == Picked(outs, trader, other)
  {
  }

  /** Inserting an output without address anywhere changes neither side. */
  lemma {:induction false} UnaddressedIgnored(outs: seq<TxOut>, k: nat, o: TxOut, trader: Address, role: Role)
    requires k <= |outs| && o.address.None?
    ensures Picked(outs[..k] + [o] + outs[k..], trader, role) == Picked(outs, trader, role)
    decreases |outs|
  {
    var grown := outs[..k] + [o] + outs[k..];
    if k == |outs| {
      assert grown[..|grown| - 1] == outs;
    } else {
      var last := outs[|outs| - 1];
      assert grown[|grown| - 1] == last;
      if RoleOf(last, trader) != Some(role) {
        var front := outs[..|outs| - 1];
        assert grown[..|grown| - 1] == front[..k] + [o] + front[k..];
        UnaddressedIgnored(front, k, o, trader, role);
      }
    }
  }

  /** Whole-list form of UnaddressedIgnored. */
  lemma UnaddressedIgnoredBothSides(outs: seq<TxOut>, k: nat, o: TxOut, trader: Address)
    requires k <= |outs| && o.address.None?
    ensures Classified(outs[..k] + [o] + outs[k..], trader) == Classified(outs, trader)
  {
    UnaddressedIgnored(outs, k, o, trader, Recipient);
    UnaddressedIgnored(outs, k, o, trader, Change);
  }

  /** With exactly one output on each side (and any number without address),
      the recipient and change are those two outputs wherever they stand. */
  lemma OneOfEach(outs: seq<TxOut>, trader: Address, i: nat, j: nat)
    requires i < |outs| && j < |outs|
    requires RoleOf(outs[i], trader) == Some(Recipient) && RoleOf(outs[j], trader) == Some(Change)
    requires forall k :: 0 <= k < |outs| && k != i && k != j ==> outs[k].address.None?
    ensures Classified(outs, trader)
            == Split(outs[i].address.value, outs[i].amount, outs[j].address.value, outs[j].amount)
  {
  }

  /** Two outputs, one to the trader and one elsewhere: their order does not
      matter. */
  lemma OrderIndependent(a: TxOut, b: TxOut, trader: Address)
    requires RoleOf(a, trader) == Some(Recipient) && RoleOf(b, trader) == Some(Change)
    ensures Classified([a, b], trader) == Classified([b, a], trader)
            == Split(a.address.value, a.amount, b.address.value, b.amount)
  {
    OneOfEach([a, b], trader, 0, 1);
    OneOfEach([b, a], trader, 1, 0);
  }
}
