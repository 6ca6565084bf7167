/** src/context/CartContext.js: the shopping cart. Every operation maps the previous list of lines
    to a new one, so the cart is a sequence and each operation a function. A line is keyed by the
    item's id together with its type ("offer" or "activity"). Only the fields the cart reads are
    kept: the id, the type, the discount text and the quantity. */
module Cart {
  import opened JsText
  import Sequences

  /** The item handed to `addToCart`. */
  datatype Item = Item(id: int, descuento: string)

  datatype Line = Line(id: int, kind: string, descuento: string, quantity: int)

  predicate Matches(l: Line, id: int, kind: string) { l.id == id && l.kind == kind }

  /** At most one line per key. */
  predicate UniqueKeys(c: seq<Line>) {
    forall i, j :: 0 <= i < j < |c| ==> !(c[i].id == c[j].id && c[i].kind == c[j].kind)
  }

  predicate HasKey(c: seq<Line>, id: int, kind: string) {
    exists i :: 0 <= i < |c| && Matches(c[i], id, kind)
  }

  /** `getTotalItems`. */
  function TotalItems(c: seq<Line>): int {
    if c == [] then 0 else c[0].quantity + TotalItems(c[1..])
  }

  /** The quantity held under one key. */
  function QuantityOf(c: seq<Line>, id: int, kind: string): int {
    if c == [] then 0
    else (if Matches(c[0], id, kind) then c[0].quantity else 0) + QuantityOf(c[1..], id, kind)
  }

  /** What one line costs: 100 less the parsed discount (0 when it does not parse), per unit. */
  function LinePrice(l: Line): int {
    UnitsAt(ParseIntOrZero(l.descuento), l.quantity)
  }

  /** `quantity` units at 100 less the discount `d` each. */
  function UnitsAt(d: int, quantity: int): int {
    (100 - d) * quantity
  }

  /** `getTotalPrice`. */
  function TotalPrice(c: seq<Line>): int {
    if c == [] then 0 else LinePrice(c[0]) + TotalPrice(c[1..])
  }

  /** The `map` of `addToCart` when the key is present: that line's quantity goes up by one. */
  function Bump(c: seq<Line>, id: int, kind: string): (r: seq<Line>)
    ensures |r| == |c|
    ensures forall i :: 0 <= i < |c| ==>
      r[i] == if Matches(c[i], id, kind) then c[i].(quantity := c[i].quantity + 1) else c[i]
  {
    if c == [] then []
    else [if Matches(c[0], id, kind) then c[0].(quantity := c[0].quantity + 1) else c[0]] + Bump(c[1..], id, kind)
  }

  /** `addToCart(item, type)`. */
  function AddToCart(c: seq<Line>, item: Item, kind: string): seq<Line> {
    if HasKey(c, item.id, kind) then Bump(c, item.id, kind)
    else c + [Line(item.id, kind, item.descuento, 1)]
  }

  /** `removeFromCart(id, type)`: the other lines, in order. */
  function RemoveFromCart(c: seq<Line>, id: int, kind: string): (r: seq<Line>)
    ensures |r| <= |c|
    ensures Sequences.SubsequenceOf(r, c)
  {
    if c == [] then []
    else
      var rest := RemoveFromCart(c[1..], id, kind);
      if Matches(c[0], id, kind) then rest
      else
        var kept := [c[0]] + rest;
        assert kept[0] == c[0] && kept[1..] == rest;
        kept
  }

  /** The `map` of `updateQuantity` for a positive quantity. */
  function SetQuantity(c: seq<Line>, id: int, kind: string, q: int): (r: seq<Line>)
    ensures |r| == |c|
    ensures forall i :: 0 <= i < |c| ==> r[i] == if Matches(c[i], id, kind) then c[i].(quantity := q) else c[i]
  {
    if c == [] then []
    else [if Matches(c[0], id, kind) then c[0].(quantity := q) else c[0]] + SetQuantity(c[1..], id, kind, q)
  }

  /** `updateQuantity(id, type, q)`: a quantity of zero or less removes the line. */
  function UpdateQuantity(c: seq<Line>, id: int, kind: string, q: int): seq<Line> {
    if q <= 0 then RemoveFromCart(c, id, kind) else SetQuantity(c, id, kind, q)
  }

  /** `clearCart`. */
  function ClearCart(): (r: seq<Line>)
    ensures TotalItems(r) == 0 && TotalPrice(r) == 0
  {
    []
  }

  lemma {:induction false} TotalItemsAppend(a: seq<Line>, b: seq<Line>, id: int, kind: string)
    ensures TotalItems(a + b) == TotalItems(a) + TotalItems(b)
    ensures QuantityOf(a + b, id, kind) == QuantityOf(a, id, kind) + QuantityOf(b, id, kind)
  {
    if a != [] {
      assert (a + b)[1..] == a[1..] + b;
      TotalItemsAppend(a[1..], b, id, kind);
    } else {
      assert a + b == b;
    }
  }

  /** A key absent from the cart holds no quantity. */
  lemma {:induction false} AbsentHoldsNothing(c: seq<Line>, id: int, kind: string)
    requires !HasKey(c, id, kind)
    ensures QuantityOf(c, id, kind) == 0
  {
    if c != [] {
      assert !HasKey(c[1..], id, kind) by {
        forall i | 0 <= i < |c[1..]| ensures !Matches(c[1..][i], id, kind) {
          assert c[1..][i] == c[i + 1];
        }
      }
      AbsentHoldsNothing(c[1..], id, kind);
    }
  }

  /** Bumping adds one to the total for every line under the key. */
  lemma {:induction false} BumpCounts(c: seq<Line>, id: int, kind: string, id2: int, kind2: string)
    requires UniqueKeys(c)
    ensures TotalItems(Bump(c, id, kind)) == TotalItems(c) + (if HasKey(c, id, kind) then 1 else 0)
    ensures QuantityOf(Bump(c, id, kind), id2, kind2) ==
      QuantityOf(c, id2, kind2) + (if id2 == id && kind2 == kind && HasKey(c, id, kind) then 1 else 0)
  {
    if c != [] {
      var t := c[1..];
      assert UniqueKeys(t) by {
        forall i, j | 0 <= i < j < |t| ensures !(t[i].id == t[j].id && t[i].kind == t[j].kind) {
          assert t[i] == c[i + 1] && t[j] == c[j + 1];
        }
      }
      assert Bump(c, id, kind)[1..] == Bump(t, id, kind);
      BumpCounts(t, id, kind, id2, kind2);
      if Matches(c[0], id, kind) {
        assert !HasKey(t, id, kind) by {
          forall i | 0 <= i < |t| ensures !Matches(t[i], id, kind) {
            assert t[i] == c[i + 1];
          }
        }
      } else {
        HasKeyTail(c, id, kind);
      }
    }
  }

  /** Adding raises the total by exactly one, and the quantity of the added key by one while every
      other key keeps its quantity; a new key gets a line with quantity 1 at the end. */
  lemma AddCounts(c: seq<Line>, item: Item, kind: string, id2: int, kind2: string)
    requires UniqueKeys(c)
    ensures TotalItems(AddToCart(c, item, kind)) == TotalItems(c) + 1
    ensures QuantityOf(AddToCart(c, item, kind), id2, kind2) ==
      QuantityOf(c, id2, kind2) + (if id2 == item.id && kind2 == kind then 1 else 0)
    ensures !HasKey(c, item.id, kind) ==> AddToCart(c, item, kind) == c + [Line(item.id, kind, item.descuento, 1)]
    ensures HasKey(c, item.id, kind) ==> |AddToCart(c, item, kind)| == |c|
  {
    if HasKey(c, item.id, kind) {
      BumpCounts(c, item.id, kind, id2, kind2);
    } else {
      var l := Line(item.id, kind, item.descuento, 1);
      TotalItemsAppend(c, [l], id2, kind2);
      assert [l][1..] == [];
      if id2 == item.id && kind2 == kind {
        AbsentHoldsNothing(c, id2, kind2);
      }
    }
  }

  /** The cart never holds two lines for one key. */
  lemma AddKeepsUnique(c: seq<Line>, item: Item, kind: string)
    requires UniqueKeys(c)
    ensures UniqueKeys(AddToCart(c, item, kind))
    ensures HasKey(AddToCart(c, item, kind), item.id, kind)
  {
    var r := AddToCart(c, item, kind);
    if !HasKey(c, item.id, kind) {
      assert r[|c|] == Line(item.id, kind, item.descuento, 1);
      forall i, j | 0 <= i < j < |r| ensures !(r[i].id == r[j].id && r[i].kind == r[j].kind) {
        assert r[i] == c[i];
        if j < |c| {
          assert r[j] == c[j];
        } else {
          assert !Matches(c[i], item.id, kind);
        }
      }
    } else {
      var i :| 0 <= i < |c| && Matches(c[i], item.id, kind);
      assert Matches(r[i], item.id, kind);
      assert forall k :: 0 <= k < |c| ==> r[k].id == c[k].id && r[k].kind == c[k].kind;
    }
  }

  /** The lines left after removing the key `id`, `kind` from a cart whose first line is `c[0]`. */
  lemma RemoveUnfold(c: seq<Line>, id: int, kind: string)
    requires c != []
    ensures RemoveFromCart(c, id, kind) == (if Matches(c[0], id, kind) then [] else [c[0]]) + RemoveFromCart(c[1..], id, kind)
  {
  }

  /** Removing keeps exactly the other lines. */
  lemma {:induction false} RemoveKeepsOthers(c: seq<Line>, id: int, kind: string)
    ensures forall l :: l in RemoveFromCart(c, id, kind) <==> l in c && !Matches(l, id, kind)
    ensures !HasKey(RemoveFromCart(c, id, kind), id, kind)
  {
    if c != [] {
      RemoveKeepsOthers(c[1..], id, kind);
      assert c == [c[0]] + c[1..];
      assert forall l :: l in c <==> l == c[0] || l in c[1..];
    }
    var r := RemoveFromCart(c, id, kind);
    assert forall i :: 0 <= i < |r| ==> r[i] in r;
  }

  /** Removing takes away exactly the key's quantity from the total. */
  lemma {:induction false} RemoveTotal(c: seq<Line>, id: int, kind: string)
    ensures TotalItems(RemoveFromCart(c, id, kind)) == TotalItems(c) - QuantityOf(c, id, kind)
  {
    if c != [] {
      RemoveTotal(c[1..], id, kind);
      var head := if Matches(c[0], id, kind) then [] else [c[0]];
      TotalItemsAppend(head, RemoveFromCart(c[1..], id, kind), id, kind);
      if head != [] {
        assert head[1..] == [];
      }
    }
  }

  /** Removing an absent key changes nothing. */
  lemma {:induction false} RemoveAbsent(c: seq<Line>, id: int, kind: string)
    requires !HasKey(c, id, kind)
    ensures RemoveFromCart(c, id, kind) == c
  {
    if c != [] {
      assert !HasKey(c[1..], id, kind) by {
        forall i | 0 <= i < |c[1..]| ensures !Matches(c[1..][i], id, kind) {
          assert c[1..][i] == c[i + 1];
        }
      }
      RemoveAbsent(c[1..], id, kind);
      assert c == [c[0]] + c[1..];
    }
  }

  /** A line in front of a cart keeps the keys unique exactly when the cart's keys are unique and
      none of its lines has the new line's key. */
  lemma ConsUnique(x: Line, t: seq<Line>)
    ensures UniqueKeys([x] + t) <==>
      UniqueKeys(t) && forall l :: l in t ==> !(l.id == x.id && l.kind == x.kind)
  {
    var c := [x] + t;
    assert forall i :: 0 <= i < |t| ==> c[i + 1] == t[i];
    if UniqueKeys(c) {
      forall l | l in t ensures !(l.id == x.id && l.kind == x.kind) {
        var k :| 0 <= k < |t| && t[k] == l;
        assert c[0] == x && c[k + 1] == l;
        assert !(c[0].id == c[k + 1].id && c[0].kind == c[k + 1].kind);
      }
      forall i, j | 0 <= i < j < |t| ensures !(t[i].id == t[j].id && t[i].kind == t[j].kind) {
        assert c[i + 1] == t[i] && c[j + 1] == t[j];
      }
    }
    if UniqueKeys(t) && forall l :: l in t ==> !(l.id == x.id && l.kind == x.kind) {
      forall i, j | 0 <= i < j < |c| ensures !(c[i].id == c[j].id && c[i].kind == c[j].kind) {
        assert c[j] == t[j - 1] && c[j] in t;
        if i > 0 {
          assert c[i] == t[i - 1];
        }
      }
    }
  }

  /** Removing keeps the keys unique. */
  lemma {:induction false} RemoveKeepsUnique(c: seq<Line>, id: int, kind: string)
    requires UniqueKeys(c)
    ensures UniqueKeys(RemoveFromCart(c, id, kind))
  {
    if c != [] {
      var t := c[1..];
      assert c == [c[0]] + t;
      ConsUnique(c[0], t);
      RemoveKeepsUnique(t, id, kind);
      RemoveKeepsOthers(t, id, kind);
      var rt := RemoveFromCart(t, id, kind);
      if Matches(c[0], id, kind) {
        assert RemoveFromCart(c, id, kind) == [] + rt == rt;
      } else {
        ConsUnique(c[0], rt);
      }
    }
  }

  /** Removing a key that was just added to a cart without it gives the cart back. */
  lemma AddThenRemove(c: seq<Line>, item: Item, kind: string)
    requires !HasKey(c, item.id, kind)
    ensures RemoveFromCart(AddToCart(c, item, kind), item.id, kind) == c
  {
    RemoveAppend(c, [Line(item.id, kind, item.descuento, 1)], item.id, kind);
    RemoveAbsent(c, item.id, kind);
  }

  lemma {:induction false} RemoveAppend(a: seq<Line>, b: seq<Line>, id: int, kind: string)
    ensures RemoveFromCart(a + b, id, kind) == RemoveFromCart(a, id, kind) + RemoveFromCart(b, id, kind)
  {
    if a == [] {
      assert a + b == b;
    } else {
      assert (a + b)[1..] == a[1..] + b;
      RemoveAppend(a[1..], b, id, kind);
    }
  }

  /** `updateQuantity` with zero or less is `removeFromCart`; with a positive quantity it sets the
      key's quantity to exactly that when the key is there, and keeps every other key's. */
  lemma {:induction false} UpdateQuantityCounts(c: seq<Line>, id: int, kind: string, q: int, id2: int, kind2: string)
    requires UniqueKeys(c)
    ensures q <= 0 ==> UpdateQuantity(c, id, kind, q) == RemoveFromCart(c, id, kind)
    ensures q > 0 ==> QuantityOf(UpdateQuantity(c, id, kind, q), id2, kind2) ==
                      if id2 == id && kind2 == kind && HasKey(c, id, kind) then q else QuantityOf(c, id2, kind2)
  {
    if q > 0 && c != [] {
      var t := c[1..];
      assert UniqueKeys(t) by {
        forall i, j | 0 <= i < j < |t| ensures !(t[i].id == t[j].id && t[i].kind == t[j].kind) {
          assert t[i] == c[i + 1] && t[j] == c[j + 1];
        }
      }
      assert SetQuantity(c, id, kind, q)[1..] == SetQuantity(t, id, kind, q);
      UpdateQuantityCounts(t, id, kind, q, id2, kind2);
      if Matches(c[0], id, kind) {
        assert !HasKey(t, id, kind) by {
          forall i | 0 <= i < |t| ensures !Matches(t[i], id, kind) {
            assert t[i] == c[i + 1];
          }
        }
        AbsentHoldsNothing(t, id, kind);
      } else {
        HasKeyTail(c, id, kind);
      }
    }
  }

  /** A key other than the first line's is in the cart exactly when it is in the rest. */
  lemma HasKeyTail(c: seq<Line>, id: int, kind: string)
    requires c != [] && !Matches(c[0], id, kind)
    ensures HasKey(c, id, kind) <==> HasKey(c[1..], id, kind)
  {
    if HasKey(c, id, kind) {
      var i :| 0 <= i < |c| && Matches(c[i], id, kind);
      assert c[1..][i - 1] == c[i];
    }
    if HasKey(c[1..], id, kind) {
      var i :| 0 <= i < |c[1..]| && Matches(c[1..][i], id, kind);
      assert c[i + 1] == c[1..][i];
    }
  }

  /** A positive quantity update keeps the keys unique: it changes no key. */
  lemma UpdateKeepsUnique(c: seq<Line>, id: int, kind: string, q: int)
    requires UniqueKeys(c)
    ensures UniqueKeys(UpdateQuantity(c, id, kind, q))
  {
    if q <= 0 {
      RemoveKeepsUnique(c, id, kind);
    } else {
      var r := SetQuantity(c, id, kind, q);
      assert forall i :: 0 <= i < |c| ==> r[i].id == c[i].id && r[i].kind == c[i].kind;
    }
  }

  lemma ScaleBounds(d: int, q: int)
    requires 0 <= d <= 100 && q > 0
    ensures 0 <= UnitsAt(d, q) <= 100 * q
  {
    assert 0 <= d * q;
    assert (100 - d) * q == 100 * q - d * q;
    assert 0 <= (100 - d) * q;
  }

  /** A line whose discount parses into [0, 100] and whose quantity is positive. */
  predicate Sane(l: Line) {
    0 <= ParseIntOrZero(l.descuento) <= 100 && l.quantity > 0
  }

  /** With every discount between 0 and 100 and every quantity positive, the total price is never
      negative and never more than 100 per unit. */
  lemma {:induction false} TotalPriceBounds(c: seq<Line>)
    requires forall i :: 0 <= i < |c| ==> Sane(c[i])
    ensures 0 <= TotalPrice(c) <= 100 * TotalItems(c)
  {
    if c != [] {
      assert forall i :: 0 <= i < |c[1..]| ==> c[1..][i] == c[i + 1];
      TotalPriceBounds(c[1..]);
      LineBounds(c[0]);
    }
  }

  lemma LineBounds(l: Line)
    requires Sane(l)
    ensures 0 <= LinePrice(l) <= 100 * l.quantity
  {
    ScaleBounds(ParseIntOrZero(l.descuento), l.quantity);
  }
}
