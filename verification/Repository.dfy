/** The queries of the repositories, each as a function of the tables its statement sees. */
module Repository {
  import opened Schema

  /** The least element, as ORDER BY id LIMIT 1 picks it. */
  function Least(s: set<int>): (m: int)
    requires s != {}
    ensures m in s && forall x :: x in s ==> m <= x
  {
    LeastExists(s);
    var m :| m in s && forall x :: x in s ==> m <= x;
    m
  }

  lemma {:induction false} LeastExists(s: set<int>)
    requires s != {}
    ensures exists m :: m in s && forall x :: x in s ==> m <= x
    decreases |s|
  {
    assert exists a :: a in s by { if forall a :: a !in s { assert false; } }
    var a :| a in s;
    var rest := s - {a};
    assert forall x :: x in s ==> x == a || x in rest;
    if rest == {} {
      assert a in s && forall x :: x in s ==> a <= x;
    } else {
      LeastExists(rest);
      var m :| m in rest && forall x :: x in rest ==> m <= x;
      var least := if a < m then a else m;
      assert least in s && forall x :: x in s ==> least <= x;
    }
  }

  /** IdempotencyRepository.Resolve: the linked order, or 0 for no row or a null order_id. */
  function Resolve(t: Tables, k: Addr): int {
    if k in t && t[k].KeyRow? && t[k].orderId.Some? then t[k].orderId.value else 0
  }

  /** OrderRepository.ByID: filtered by vendor. */
  function OrderById(t: Tables, vendorId: int, orderId: int): Option<Order> {
    if HasOrder(t, orderId) && OrderIn(t, orderId).vendorId == vendorId then Some(OrderIn(t, orderId)) else None
  }

  /** CatalogPriceRepository.Get: filtered by vendor. */
  function PriceOf(t: Tables, vendorId: int, catalogId: int): Option<Item> {
    if HasItem(t, catalogId) && ItemIn(t, catalogId).vendorId == vendorId then Some(ItemIn(t, catalogId)) else None
  }

  /** CatalogRepository.GetByID: not filtered by vendor. */
  function ItemById(t: Tables, catalogId: int): Option<Item> {
    if HasItem(t, catalogId) then Some(ItemIn(t, catalogId)) else None
  }

  /** ProxyServiceRepository.ByIDForUserTx: filtered by user. */
  function ServiceForUser(t: Tables, serviceId: int, userId: int): Option<Service> {
    if HasService(t, serviceId) && ServiceIn(t, serviceId).userId == userId then Some(ServiceIn(t, serviceId)) else None
  }

  /** ProxyServiceRepository.ByID: filtered by vendor. */
  function ServiceById(t: Tables, vendorId: int, serviceId: int): Option<Service> {
    if HasService(t, serviceId) && ServiceIn(t, serviceId).vendorId == vendorId then Some(ServiceIn(t, serviceId))
    else None
  }

  function WalletsOf(t: Tables, userId: int): (ids: set<int>)
    ensures forall w :: w in ids <==> HasWallet(t, w) && WalletIn(t, w).userId == userId
  {
    set a | a in t && a.WalletAt? && t[a].WalletRow? && t[a].wallet.userId == userId :: a.id
  }

  /** The wallet row a single-row read by user_id returns. */
  function WalletOf(t: Tables, userId: int): Option<int> {
    if WalletsOf(t, userId) == {} then None else Some(Least(WalletsOf(t, userId)))
  }

  function ActivePanels(t: Tables, vendorId: int): (ids: set<int>)
    ensures forall p :: p in ids <==> HasPanel(t, p) && PanelIn(t, p).vendorId == vendorId && PanelIn(t, p).active
  {
    set a | a in t && a.PanelAt? && t[a].PanelRow? && t[a].panel.vendorId == vendorId && t[a].panel.active :: a.id
  }

  /** XUIPanelRepository.FirstActive. */
  function FirstActive(t: Tables, vendorId: int): Option<int> {
    if ActivePanels(t, vendorId) == {} then None else Some(Least(ActivePanels(t, vendorId)))
  }

  const DAY := 86400

  /** The expires_at assignment of ExtendExpiryTx; `now` is the transaction's start time. */
  function ExtendedExpiry(expiresAt: Option<int>, days: int, now: int): int {
    if expiresAt.None? || expiresAt.value < now then now + days * DAY else expiresAt.value + days * DAY
  }
}
