/** Coupon counters: each counts exactly the redemptions that have not been released. */
module CouponUses {
  import opened Wrappers
  import opened Purchases

  predicate Uses(r: Redemption, coupon: Id) { r.coupon == coupon && !r.status.RELEASED? }

  ghost function UsesOf(redemptions: map<string, Redemption>, coupon: Id): set<string> {
    set p | p in redemptions && Uses(redemptions[p], coupon)
  }

  ghost function UsesBy(redemptions: map<string, Redemption>, coupon: Id, user: Id): set<string> {
    set p | p in redemptions && Counts(redemptions[p], coupon, user)
  }

  ghost predicate BookOk(b: Book) {
    && (forall c <- b.coupons :: b.coupons[c].used == |UsesOf(b.redemptions, c)|)
    && (forall c, u :: (c, u) in b.held ==> b.held[(c, u)] == |UsesBy(b.redemptions, c, u)|)
    && (forall p <- b.redemptions ::
          b.redemptions[p].coupon in b.coupons && (b.redemptions[p].coupon, b.redemptions[p].user) in b.held)
  }

  function Bit(b: bool): int { if b then 1 else 0 }

  /** Sets that differ in one member at most. */
  lemma SetSize(a: set<string>, b: set<string>, p: string)
    requires forall x :: x != p ==> (x in a <==> x in b)
    ensures |b| == |a| + Bit(p in b) - Bit(p in a)
  {
    assert b == (a - {p}) + if p in b then {p} else {};
  }

  /** One redemption changes: the counts move by whether it counted before and whether it does now. */
  lemma OneRedemption(rs: map<string, Redemption>, p: string, r: Redemption, coupon: Id)
    ensures |UsesOf(rs[p := r], coupon)| ==
            |UsesOf(rs, coupon)| + Bit(Uses(r, coupon)) - Bit(p in rs && Uses(rs[p], coupon))
  {
    hide Uses;
    SetSize(UsesOf(rs, coupon), UsesOf(rs[p := r], coupon), p);
  }

  lemma OneRedemptionBy(rs: map<string, Redemption>, p: string, r: Redemption, coupon: Id, user: Id)
    ensures |UsesBy(rs[p := r], coupon, user)| ==
            |UsesBy(rs, coupon, user)| + Bit(Counts(r, coupon, user)) - Bit(p in rs && Counts(rs[p], coupon, user))
  {
    hide Counts;
    SetSize(UsesBy(rs, coupon, user), UsesBy(rs[p := r], coupon, user), p);
  }

  /** Counters that move with the redemption still count it. */
  lemma CountersFollow(b: Book, b': Book, p: string, r: Redemption)
    requires BookOk(b) && b'.redemptions == b.redemptions[p := r]
    requires r.coupon in b'.coupons && (r.coupon, r.user) in b'.held && b.coupons.Keys <= b'.coupons.Keys && b.held.Keys <= b'.held.Keys
    requires forall c <- b'.coupons ::
               c in b.coupons
               && b'.coupons[c].used == b.coupons[c].used + Bit(Uses(r, c)) - Bit(p in b.redemptions && Uses(b.redemptions[p], c))
    requires forall c, u :: (c, u) in b'.held ==>
               b'.held[(c, u)] == (if (c, u) in b.held then b.held[(c, u)] else |UsesBy(b.redemptions, c, u)|)
                                  + Bit(Counts(r, c, u)) - Bit(p in b.redemptions && Counts(b.redemptions[p], c, u))
    ensures BookOk(b')
  {
    forall c | c in b'.coupons ensures b'.coupons[c].used == |UsesOf(b'.redemptions, c)| {
      OneRedemption(b.redemptions, p, r, c);
    }
    forall c, u | (c, u) in b'.held ensures b'.held[(c, u)] == |UsesBy(b'.redemptions, c, u)| {
      OneRedemptionBy(b.redemptions, p, r, c, u);
    }
  }

  lemma EnsureKeepsOk(b: Book, coupon: Id, user: Id)
    requires BookOk(b)
    ensures BookOk(EnsureCounter(b, coupon, user))
  {
    assert (set p | p in b.redemptions && Counts(b.redemptions[p], coupon, user)) == UsesBy(b.redemptions, coupon, user);
  }

  lemma NewCouponKeepsOk(b: Book, coupon: Id, maxUses: Option<int>, limit: int)
    requires BookOk(b) && coupon !in b.coupons
    ensures BookOk(b.(coupons := b.coupons[coupon := Coupon(maxUses, limit, 0)]))
  {
    assert UsesOf(b.redemptions, coupon) == {};
  }

  lemma ReserveKeepsOk(b: Book, coupon: Id, user: Id, p: string)
    requires BookOk(b) && p !in b.redemptions && ReserveCoupon(b, coupon, user, p).Some?
    ensures BookOk(ReserveCoupon(b, coupon, user, p).value)
  {
    CountersFollow(b, ReserveCoupon(b, coupon, user, p).value, p, Redemption(coupon, user, RESERVED));
  }

  /** A counted use keeps both counters above zero: the guards of a release never hold it back. */
  lemma CountedIsPositive(b: Book, p: string)
    requires BookOk(b) && p in b.redemptions && !b.redemptions[p].status.RELEASED?
    ensures var r := b.redemptions[p]; b.coupons[r.coupon].used > 0 && b.held[(r.coupon, r.user)] > 0
  {
    var r := b.redemptions[p];
    assert p in UsesOf(b.redemptions, r.coupon) && p in UsesBy(b.redemptions, r.coupon, r.user);
  }

  lemma ReleaseUseKeepsOk(b: Book, p: string, from: RedemptionStatus)
    requires BookOk(b) && !from.RELEASED?
    ensures BookOk(ReleaseCoupon(b, p, from))
  {
    if p in b.redemptions && b.redemptions[p].status == from {
      CountedIsPositive(b, p);
      CountersFollow(b, ReleaseCoupon(b, p, from), p, b.redemptions[p].(status := RELEASED));
    }
  }

  lemma RedeemKeepsOk(b: Book, coupon: Option<Id>, user: Id, p: string)
    requires BookOk(b)
    requires coupon.Some? ==> coupon.value in b.coupons
    requires coupon.Some? && p in b.redemptions ==> b.redemptions[p].coupon == coupon.value && b.redemptions[p].user == user
    ensures BookOk(RedeemCoupon(b, coupon, user, p))
  {
    if coupon.Some? {
      if p in b.redemptions && b.redemptions[p].status.RESERVED? {
        CountersFollow(b, RedeemCoupon(b, coupon, user, p), p, b.redemptions[p].(status := REDEEMED));
      } else if p !in b.redemptions || b.redemptions[p].status.RELEASED? {
        LateUseKeepsOk(b, coupon.value, user, p);
      }
    }
  }

  /** A use recorded without a live reservation counts one more. */
  lemma LateUseKeepsOk(b: Book, coupon: Id, user: Id, p: string)
    requires BookOk(b) && coupon in b.coupons
    requires p in b.redemptions ==> b.redemptions[p] == Redemption(coupon, user, RELEASED)
    ensures BookOk(RedeemCoupon(b, Some(coupon), user, p))
  {
    if (coupon, user) !in b.held { NoUses(b, coupon, user); }
    CountersFollow(b, RedeemCoupon(b, Some(coupon), user, p), p, Redemption(coupon, user, REDEEMED));
  }

  lemma NoUses(b: Book, coupon: Id, user: Id)
    requires BookOk(b) && (coupon, user) !in b.held
    ensures |UsesBy(b.redemptions, coupon, user)| == 0
  {
    assert UsesBy(b.redemptions, coupon, user) == {};
  }
}
