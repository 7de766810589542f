/**
 * The derived balance of a user: the credited amounts of the user's approved
 * payments minus the prices of the user's completed orders. A NULL
 * `credited_amount` adds nothing to the SQL sum, and an empty sum is 0.
 */
module Balance {
  import opened Wrappers
  import opened Tables

  /** What payment `p` contributes to the sum of user `uid`. */
  function Credit(p: Payment, uid: int): real {
    if p.userId == uid && p.status == "approved" then p.creditedAmount.GetOr(0.0) else 0.0
  }

  /** What order `o` contributes to the charges of user `uid`. */
  function Charge(o: Order, uid: int): real {
    if o.userId == uid && o.status == Completed then o.priceUsed else 0.0
  }

  /** `SUM(credited_amount) WHERE user_id = uid AND status = 'approved'`, 0 when no row matches. */
  function CreditSum(ps: seq<Payment>, uid: int): real {
    if ps == [] then 0.0 else Credit(ps[0], uid) + CreditSum(ps[1..], uid)
  }

  /** `SUM(price_used) WHERE user_id = uid AND status = 'completed'`, 0 when no row matches. */
  function ChargeSum(os: seq<Order>, uid: int): real {
    if os == [] then 0.0 else Charge(os[0], uid) + ChargeSum(os[1..], uid)
  }

  /** `getUserBalance(uid)` over the given table contents. */
  function UserBalance(ps: seq<Payment>, os: seq<Order>, uid: int): real {
    CreditSum(ps, uid) - ChargeSum(os, uid)
  }

  /** `getUserBalance` reads the two tables and changes nothing. */
  method GetUserBalance(st: Store, uid: int) returns (balance: real)
    ensures balance == UserBalance(st.payments, st.orders, uid)
  {
    var paid := CreditSum(st.payments, uid);
    var charged := ChargeSum(st.orders, uid);
    balance := paid - charged;
  }

  lemma {:induction false} CreditSumConcat(ps: seq<Payment>, qs: seq<Payment>, uid: int)
    ensures CreditSum(ps + qs, uid) == CreditSum(ps, uid) + CreditSum(qs, uid)
  {
    if ps != [] {
      assert (ps + qs)[1..] == ps[1..] + qs;
      CreditSumConcat(ps[1..], qs, uid);
    } else {
      assert ps + qs == qs;
    }
  }

  lemma {:induction false} ChargeSumConcat(os: seq<Order>, rs: seq<Order>, uid: int)
    ensures ChargeSum(os + rs, uid) == ChargeSum(os, uid) + ChargeSum(rs, uid)
  {
    if os != [] {
      assert (os + rs)[1..] == os[1..] + rs;
      ChargeSumConcat(os[1..], rs, uid);
    } else {
      assert os + rs == rs;
    }
  }

  /** The sums of rows none of which matches are 0. */
  lemma {:induction false} NoMatchingRows(ps: seq<Payment>, os: seq<Order>, uid: int)
    requires forall i :: 0 <= i < |ps| ==> Credit(ps[i], uid) == 0.0
    requires forall i :: 0 <= i < |os| ==> Charge(os[i], uid) == 0.0
    ensures UserBalance(ps, os, uid) == 0.0
  {
    CreditSumZero(ps, uid);
    ChargeSumZero(os, uid);
  }

  lemma {:induction false} CreditSumZero(ps: seq<Payment>, uid: int)
    requires forall i :: 0 <= i < |ps| ==> Credit(ps[i], uid) == 0.0
    ensures CreditSum(ps, uid) == 0.0
  {
    if ps != [] {
      assert forall i :: 0 <= i < |ps[1..]| ==> ps[1..][i] == ps[i + 1];
      CreditSumZero(ps[1..], uid);
    }
  }

  lemma {:induction false} ChargeSumZero(os: seq<Order>, uid: int)
    requires forall i :: 0 <= i < |os| ==> Charge(os[i], uid) == 0.0
    ensures ChargeSum(os, uid) == 0.0
  {
    if os != [] {
      assert forall i :: 0 <= i < |os[1..]| ==> os[1..][i] == os[i + 1];
      ChargeSumZero(os[1..], uid);
    }
  }

  /** Recording an approved payment of the user with credited amount `c` raises the balance by exactly `c`. */
  lemma ApprovedPaymentRaises(ps: seq<Payment>, os: seq<Order>, p: Payment, uid: int, c: real)
    requires p.userId == uid && p.status == "approved" && p.creditedAmount == Some(c)
    ensures UserBalance(ps + [p], os, uid) == UserBalance(ps, os, uid) + c
  {
    CreditSumConcat(ps, [p], uid);
  }

  /** Completing an order of the user at price `o.priceUsed` lowers the balance by exactly that price. */
  lemma CompletedOrderLowers(ps: seq<Payment>, os: seq<Order>, o: Order, uid: int)
    requires o.userId == uid && o.status == Completed
    ensures UserBalance(ps, os + [o], uid) == UserBalance(ps, os, uid) - o.priceUsed
  {
    ChargeSumConcat(os, [o], uid);
  }

  /**
   * Recording a payment without a credited amount together with an order of
   * the user changes the balance by exactly the order's charge.
   */
  lemma UncreditedPurchase(ps: seq<Payment>, os: seq<Order>, p: Payment, o: Order, uid: int)
    requires p.creditedAmount.None? && o.userId == uid
    ensures UserBalance(ps + [p], os + [o], uid)
         == UserBalance(ps, os, uid) - (if o.status == Completed then o.priceUsed else 0.0)
  {
    CreditSumConcat(ps, [p], uid);
    ChargeSumConcat(os, [o], uid);
  }

  /**
   * Rows of other users, payments that are not approved or carry no credited
   * amount, and orders that are not completed leave the balance unchanged,
   * wherever they are inserted.
   */
  lemma IrrelevantRowsKeep(ps1: seq<Payment>, qs: seq<Payment>, ps2: seq<Payment>,
                           os1: seq<Order>, rs: seq<Order>, os2: seq<Order>, uid: int)
    requires forall i :: 0 <= i < |qs| ==> qs[i].userId != uid || qs[i].status != "approved" || qs[i].creditedAmount.None?
    requires forall i :: 0 <= i < |rs| ==> rs[i].userId != uid || rs[i].status != Completed
    ensures UserBalance(ps1 + qs + ps2, os1 + rs + os2, uid) == UserBalance(ps1 + ps2, os1 + os2, uid)
  {
    CreditSumConcat(ps1 + qs, ps2, uid);
    CreditSumConcat(ps1, qs, uid);
    CreditSumConcat(ps1, ps2, uid);
    ChargeSumConcat(os1 + rs, os2, uid);
    ChargeSumConcat(os1, rs, uid);
    ChargeSumConcat(os1, os2, uid);
    CreditSumZero(qs, uid);
    ChargeSumZero(rs, uid);
  }

  /**
   * Saving order row `k` of the user as completed (`updateOrderStatus`, or the
   * webhook's save after the API call) lowers the balance by the saved price.
   */
  lemma {:induction false} CompleteOrderLowers(ps: seq<Payment>, os: seq<Order>, k: nat, o: Order, uid: int)
    requires k < |os| && os[k].orderId == o.orderId && os[k].userId == uid && os[k].status != Completed
    requires o.userId == uid && o.status == Completed
    requires forall i :: 0 <= i < |os| && i != k ==> os[i].orderId != o.orderId
    ensures UserBalance(ps, ReplaceOrder(os, o), uid) == UserBalance(ps, os, uid) - o.priceUsed
  {
    var r := ReplaceOrder(os, o);
    assert os == os[..k] + [os[k]] + os[k + 1..];
    assert r == os[..k] + [o] + os[k + 1..];
    ChargeSumConcat(os[..k] + [os[k]], os[k + 1..], uid);
    ChargeSumConcat(os[..k], [os[k]], uid);
    ChargeSumConcat(os[..k] + [o], os[k + 1..], uid);
    ChargeSumConcat(os[..k], [o], uid);
  }

  /** The `users` table with every stored `balance` column replaced by `f` of the user id. */
  function Rebalanced(users: seq<User>, f: int -> real): (r: seq<User>)
    ensures |r| == |users|
    ensures forall i :: 0 <= i < |users| ==> r[i] == users[i].(balance := f(users[i].userId))
  {
    seq(|users|, i requires 0 <= i < |users| => users[i].(balance := f(users[i].userId)))
  }

  lemma {:induction false} FindUserRebalanced(users: seq<User>, f: int -> real, id: int)
    ensures FindUser(Rebalanced(users, f), id) == FindUser(users, id)
  {
    if users != [] {
      assert Rebalanced(users, f)[1..] == Rebalanced(users[1..], f);
      FindUserRebalanced(users[1..], f, id);
    }
  }

  lemma {:induction false} FindUserByEmailRebalanced(users: seq<User>, f: int -> real, email: string)
    ensures FindUserByEmail(Rebalanced(users, f), email) == FindUserByEmail(users, email)
  {
    if users != [] {
      assert Rebalanced(users, f)[1..] == Rebalanced(users[1..], f);
      FindUserByEmailRebalanced(users[1..], f, email);
    }
  }
}
