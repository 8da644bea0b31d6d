/** The points gate `_check_point`: admins and whitelisted users may pass for
    free, everyone else pays `price` points per request or is turned away. */
module Points {
  import opened Types

  /** `db.get_points(wxid)`: a user without an entry has 0 points. */
  function Balance(points: map<string, int>, wxid: string): int {
    if wxid in points then points[wxid] else 0
  }

  /** `db.add_points(wxid, -amount)`. */
  function Charge(points: map<string, int>, wxid: string, amount: int): (p: map<string, int>)
    ensures Balance(p, wxid) == Balance(points, wxid) - amount
    ensures forall u :: u != wxid ==> Balance(p, u) == Balance(points, u)
    ensures p.Keys == points.Keys + {wxid}
  {
    points[wxid := Balance(points, wxid) - amount]
  }

  /** The sender passes without paying: an admin while `admin_ignore` is set,
      or a whitelisted user while `whitelist_ignore` is set. */
  predicate Exempt(cfg: Config, whitelist: set<string>, wxid: string) {
    (wxid in cfg.admins && cfg.adminIgnore) || (wxid in whitelist && cfg.whitelistIgnore)
  }

  datatype PointCheck = PointCheck(ok: bool, points: map<string, int>)

  /** `_check_point` on the ledger: whether the request may go on, and the
      balances afterwards. */
  function PointGate(cfg: Config, points: map<string, int>, whitelist: set<string>,
                     wxid: string): (c: PointCheck)
    ensures c.ok <==> Exempt(cfg, whitelist, wxid) || Balance(points, wxid) >= cfg.price
    ensures !c.ok || Exempt(cfg, whitelist, wxid) ==> c.points == points
    ensures c.ok && !Exempt(cfg, whitelist, wxid) ==>
      Balance(c.points, wxid) == Balance(points, wxid) - cfg.price
    ensures forall u :: u != wxid ==> Balance(c.points, u) == Balance(points, u)
  {
    if wxid in cfg.admins && cfg.adminIgnore then PointCheck(true, points)
    else if wxid in whitelist && cfg.whitelistIgnore then PointCheck(true, points)
    else if Balance(points, wxid) < cfg.price then PointCheck(false, points)
    else PointCheck(true, Charge(points, wxid, cfg.price))
  }

  /** A charge never takes a balance below zero, whatever the price: a user
      is charged only when the balance covers the price. */
  lemma ChargeNeverOverdraws(cfg: Config, points: map<string, int>, whitelist: set<string>,
                             wxid: string)
    ensures var c := PointGate(cfg, points, whitelist, wxid);
      c.points != points ==> Balance(c.points, wxid) >= 0
  {
  }

  /** Sum of every listed user's balance. */
  function Total(points: map<string, int>, users: seq<string>): int {
    if users == [] then 0 else Balance(points, users[0]) + Total(points, users[1..])
  }

  /** Over any list of users, the gate takes exactly `price` times the
      number of times the sender appears (when it charges at all), and
      nothing otherwise. */
  lemma GateTakesExactlyPrice(cfg: Config, points: map<string, int>,
                              whitelist: set<string>, wxid: string, users: seq<string>)
    ensures var c := PointGate(cfg, points, whitelist, wxid);
      Total(c.points, users) == Total(points, users)
        - (if c.ok && !Exempt(cfg, whitelist, wxid) then cfg.price * Count(users, wxid) else 0)
  {
    var c := PointGate(cfg, points, whitelist, wxid);
    var d := if c.ok && !Exempt(cfg, whitelist, wxid) then cfg.price else 0;
    TotalAfterCharge(points, c.points, wxid, d, users);
  }

  /** A ledger that differs from another only in `wxid`'s balance, by `d`,
      totals `d` less per listed occurrence of `wxid`. */
  lemma {:induction false} TotalAfterCharge(p: map<string, int>, q: map<string, int>,
                                            wxid: string, d: int, users: seq<string>)
    requires Balance(q, wxid) == Balance(p, wxid) - d
    requires forall u :: u != wxid ==> Balance(q, u) == Balance(p, u)
    ensures Total(q, users) == Total(p, users) - d * Count(users, wxid)
  {
    if users != [] {
      TotalAfterCharge(p, q, wxid, d, users[1..]);
      var rest := Count(users[1..], wxid);
      if users[0] == wxid {
        assert d * (1 + rest) == d + d * rest;
      }
    }
  }

  function Count(users: seq<string>, wxid: string): nat {
    if users == [] then 0 else (if users[0] == wxid then 1 else 0) + Count(users[1..], wxid)
  }
}
