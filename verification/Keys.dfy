/** The idempotency keys of the ledger and of the order table, and the text each is stored as. */
module Keys {

  /** A ledger reference; rows are named by primary key. */
  datatype Ref =
    | TopUpRef(topup: nat)
    | BonusRef(topup: nat)
    | OrderRef(order: nat)
    | RefundRef(refund: nat)
    | AdjustmentRef(token: string)

  /** The idempotency key of an order. */
  datatype OrderKey =
    | CheckoutKey(user: nat, plan: nat, token: string)
    | CartKey(cart: nat, item: nat)
    | RenewalKey(sub: nat, second: int)

  function Decimal(n: nat): (text: string)
    ensures text != "" && forall i :: 0 <= i < |text| ==> '0' <= text[i] <= '9'
  {
    var digit := [('0' as int + n % 10) as char];
    if n < 10 then digit else Decimal(n / 10) + digit
  }

  function SignedDecimal(n: int): string
  {
    if n < 0 then "-" + Decimal(-n) else Decimal(n)
  }

  predicate NoColon(text: string)
  {
    forall i :: 0 <= i < |text| ==> text[i] != ':'
  }

  lemma {:induction false} DecimalInjective(a: nat, b: nat)
    requires Decimal(a) == Decimal(b)
    ensures a == b
  {
    assert Decimal(a)[|Decimal(a)| - 1] == ('0' as int + a % 10) as char;
    assert Decimal(b)[|Decimal(b)| - 1] == ('0' as int + b % 10) as char;
    assert a >= 10 ==> Decimal(a)[..|Decimal(a)| - 1] == Decimal(a / 10);
    assert b >= 10 ==> Decimal(b)[..|Decimal(b)| - 1] == Decimal(b / 10);
    if a >= 10 && b >= 10 {
      DecimalInjective(a / 10, b / 10);
    }
  }

  lemma SignedDecimalInjective(a: int, b: int)
    requires SignedDecimal(a) == SignedDecimal(b)
    ensures a == b
  {
    assert a < 0 ==> SignedDecimal(a)[0] == '-' && SignedDecimal(a)[1..] == Decimal(-a);
    assert b < 0 ==> SignedDecimal(b)[0] == '-' && SignedDecimal(b)[1..] == Decimal(-b);
    if a < 0 && b < 0 {
      DecimalInjective(-a, -b);
    } else if a >= 0 && b >= 0 {
      DecimalInjective(a, b);
    }
  }

  lemma FirstColon(a: string, b: string)
    requires NoColon(a)
    ensures (a + ":" + b)[|a|] == ':'
    ensures forall i :: 0 <= i < |a| ==> (a + ":" + b)[i] != ':'
  {
  }

  /** Text before the first colon, and text after it, are determined by the whole. */
  lemma SplitAtColon(a: string, b: string, c: string, d: string)
    requires NoColon(a) && NoColon(c)
    requires a + ":" + b == c + ":" + d
    ensures a == c && b == d
  {
    FirstColon(a, b);
    FirstColon(c, d);
    var left, right := a + ":" + b, c + ":" + d;
    assert a == left[..|a|] && c == right[..|c|];
    assert b == left[|a| + 1..] && d == right[|c| + 1..];
  }

  ghost predicate Injective(ids: nat -> string)
  {
    forall i, j :: ids(i) == ids(j) ==> i == j
  }

  /** The stored text of a ledger reference, given the public ids of top-ups and orders. */
  function RefText(ref: Ref, topups: nat -> string, orders: nat -> string): string
  {
    match ref
    case TopUpRef(t) => "topup:" + topups(t)
    case BonusRef(t) => "bonus:" + topups(t)
    case OrderRef(o) => "order:" + orders(o)
    case RefundRef(r) => "refund:" + Decimal(r)
    case AdjustmentRef(token) => "adj:" + token
  }

  /** Unique public ids make the stored references of different operations disjoint and
      references of one operation distinct, so a reference may stand for its text. */
  lemma RefTextInjective(a: Ref, b: Ref, topups: nat -> string, orders: nat -> string)
    requires Injective(topups) && Injective(orders)
    requires RefText(a, topups, orders) == RefText(b, topups, orders)
    ensures a == b
  {
    var s, t := RefText(a, topups, orders), RefText(b, topups, orders);
    assert s[0] == t[0];
    match a
    case TopUpRef(i) => assert s[6..] == topups(i); assert t[6..] == topups(b.topup);
    case BonusRef(i) => assert s[6..] == topups(i); assert t[6..] == topups(b.topup);
    case OrderRef(i) => assert s[6..] == orders(i); assert t[6..] == orders(b.order);
    case RefundRef(i) =>
      assert s[7..] == Decimal(i); assert t[7..] == Decimal(b.refund);
      DecimalInjective(i, b.refund);
    case AdjustmentRef(token) => assert s[4..] == token; assert t[4..] == b.token;
  }

  function KeyKind(key: OrderKey): (kind: string)
    ensures NoColon(kind)
  {
    match key
    case CheckoutKey(_, _, _) => "ck"
    case CartKey(_, _) => "cart"
    case RenewalKey(_, _) => "renewal"
  }

  function KeyBody(key: OrderKey): string
  {
    match key
    case CheckoutKey(user, plan, token) => Decimal(user) + ":" + (Decimal(plan) + ":" + token)
    case CartKey(cart, item) => Decimal(cart) + ":" + ("item" + ":" + Decimal(item))
    case RenewalKey(sub, second) => Decimal(sub) + ":" + SignedDecimal(second)
  }

  /** The stored text of an order's idempotency key. */
  function KeyText(key: OrderKey): string
  {
    KeyKind(key) + ":" + KeyBody(key)
  }

  lemma KeyKindDistinct(a: OrderKey, b: OrderKey)
    requires KeyKind(a) == KeyKind(b)
    ensures a.CheckoutKey? == b.CheckoutKey? && a.CartKey? == b.CartKey?
  {
  }

  /** Distinct purchases, cart lines and renewal periods never share a stored key. */
  lemma KeyTextInjective(a: OrderKey, b: OrderKey)
    requires KeyText(a) == KeyText(b)
    ensures a == b
  {
    SplitAtColon(KeyKind(a), KeyBody(a), KeyKind(b), KeyBody(b));
    KeyKindDistinct(a, b);
    match a
    case CheckoutKey(user, plan, token) =>
      SplitAtColon(Decimal(user), Decimal(plan) + ":" + token, Decimal(b.user), Decimal(b.plan) + ":" + b.token);
      SplitAtColon(Decimal(plan), token, Decimal(b.plan), b.token);
      DecimalInjective(user, b.user);
      DecimalInjective(plan, b.plan);
    case CartKey(cart, item) =>
      SplitAtColon(Decimal(cart), "item" + ":" + Decimal(item), Decimal(b.cart), "item" + ":" + Decimal(b.item));
      SplitAtColon("item", Decimal(item), "item", Decimal(b.item));
      DecimalInjective(cart, b.cart);
      DecimalInjective(item, b.item);
    case RenewalKey(sub, second) =>
      SplitAtColon(Decimal(sub), SignedDecimal(second), Decimal(b.sub), SignedDecimal(b.second));
      DecimalInjective(sub, b.sub);
      SignedDecimalInjective(second, b.second);
  }
}
