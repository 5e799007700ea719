/**
 * The page controller of the dashboard page: list loaders, the dashboard
 * loader, the delete handlers, the add-product form and the change-password
 * form. The loading overlay is a flag with the trace of `showLoading` calls; the tables
 * and the window caches hold the rows last rendered; this page's
 * notifications are recorded by kind.
 */
module AppPages {
  import opened Base
  import opened JsText
  import opened Json
  import opened Api
  import opened UserCodec
  import opened Session
  import opened App

  datatype ListKind = Products | Inventory | Inbound | Outbound | Suppliers | Customers

  function ListEndpoint(kind: ListKind): string {
    match kind
    case Products => "products"
    case Inventory => "inventory"
    case Inbound => "inbound"
    case Outbound => "outbound"
    case Suppliers => "suppliers"
    case Customers => "customers"
  }

  /** The lists whose rows the loader also keeps in a window cache. */
  predicate IsCached(kind: ListKind) {
    kind == Products || kind == Suppliers || kind == Customers
  }

  /** A notification, by kind; the texts are not modelled. */
  datatype Notice = Succeeded | Failed | Warned

  /** The rows a loader renders: the reply as a list, unless the call threw
      or a row is null (reading its fields throws before the table is set). */
  function ListRows(reply: Reply): (rows: Option<seq<Json>>)
    ensures rows.Some? ==> reply.Replied? && rows.value == AsList(reply.body)
    ensures rows.Some? <==> reply.Replied? && forall i :: 0 <= i < |AsList(reply.body)| ==> !AsList(reply.body)[i].JNull?
  {
    match reply
    case CallFailed => None
    case Replied(body) =>
      var rows := AsList(body);
      if forall i :: 0 <= i < |rows| ==> !rows[i].JNull? then Some(rows) else None
  }

  /** A thrown call renders nothing; a falsy reply renders an empty table; an
      array reply renders its own elements exactly when none is null; and
      whatever is rendered holds no null row. */
  lemma ListRowsCases(reply: Reply)
    ensures reply.CallFailed? ==> ListRows(reply).None?
    ensures reply.Replied? && !Truthy(Some(reply.body)) ==> ListRows(reply) == Some([])
    ensures reply.Replied? && reply.body.JArr? ==>
              (ListRows(reply) == Some(reply.body.items) <==> forall i :: 0 <= i < |reply.body.items| ==> !reply.body.items[i].JNull?)
    ensures ListRows(reply).Some? ==> forall i :: 0 <= i < |ListRows(reply).value| ==> !ListRows(reply).value[i].JNull?
  {
    if reply.Replied? {
      AsListCases(reply.body);
    }
  }

  /** The tables after a load: the loaded one shows the rows rendered, and
      every other table is as it was. */
  function TablesAfterLoad(tables: map<ListKind, seq<Json>>, kind: ListKind, reply: Reply): (r: map<ListKind, seq<Json>>)
    ensures ListRows(reply).None? ==> r == tables
    ensures ListRows(reply).Some? ==> kind in r && r[kind] == ListRows(reply).value
    ensures forall k :: k != kind ==> (k in r <==> k in tables) && (k in tables ==> r[k] == tables[k])
  {
    match ListRows(reply)
    case Some(rows) => tables[kind := rows]
    case None => tables
  }

  /** The caches after a load: only a cached list that rendered is replaced,
      and then by the same rows its table shows. */
  function CachesAfterLoad(caches: map<ListKind, seq<Json>>, kind: ListKind, reply: Reply): (r: map<ListKind, seq<Json>>)
    ensures ListRows(reply).None? || !IsCached(kind) ==> r == caches
    ensures ListRows(reply).Some? && IsCached(kind) ==> kind in r && r[kind] == ListRows(reply).value
    ensures forall k :: k != kind ==> (k in r <==> k in caches) && (k in caches ==> r[k] == caches[k])
  {
    match ListRows(reply)
    case Some(rows) => if IsCached(kind) then caches[kind := rows] else caches
    case None => caches
  }

  function LoadNotices(reply: Reply): seq<Notice> {
    if ListRows(reply).Some? then [] else [Failed]
  }

  /** `res?.success === false`, or the call threw. */
  predicate Declined(reply: Reply) {
    reply.CallFailed? || Get(reply.body, "success") == Some(JBool(false))
  }

  /** The records a row-level delete action removes. */
  datatype RecordKind = ProductRecord | InboundRecord | OutboundRecord

  function RecordList(kind: RecordKind): ListKind {
    match kind
    case ProductRecord => Products
    case InboundRecord => Inbound
    case OutboundRecord => Outbound
  }

  /** The body key that names the record to delete. */
  function RecordKey(kind: RecordKind): string {
    match kind
    case ProductRecord => "商品ID"
    case InboundRecord => "進貨單號"
    case OutboundRecord => "出貨單號"
  }

  /** The text `changePwdMsg` shows after the call: the reply's message, or a
      success or failure text. */
  function PasswordMessage(body: Json): string {
    if Truthy(Get(body, "message")) then FieldText(Get(body, "message"))
    else if Truthy(Get(body, "success")) then "密碼已更新"
    else "更新失敗"
  }

  /** The notification a failed guard raises: an error for naming another
      user without being an admin, a warning for a short new password. */
  function GuardNotice(e: ChangeRejection): Notice {
    if e == OnlyAdminMayTarget then Failed else Warned
  }

  /** What `changePwdMsg` shows once the call has settled. */
  function ChangeMessage(reply: Reply): Option<string> {
    if reply.Replied? then Some(PasswordMessage(reply.body)) else None
  }

  function ChangeNotices(reply: Reply): seq<Notice> {
    if reply.Replied? then [] else [Failed]
  }

  class PageController {
    const auth: Auth
    /** Whether the loading overlay is showing. */
    var overlayShown: bool
    /** The `showLoading` calls made, in order. */
    var loading: seq<bool>
    var notices: seq<Notice>
    /** The rows each table shows. */
    var tables: map<ListKind, seq<Json>>
    /** `window._productsCache`, `_suppliersCache`, `_customersCache`. */
    var caches: map<ListKind, seq<Json>>
    /** What the dashboard shows; None until a load has rendered it. */
    var dashboard: Option<Dashboard>
    var modalOpen: bool
    var passwordMessage: Option<string>

    /** Between handlers the session is consistent and the overlay is hidden. */
    ghost predicate Valid()
      reads this, auth
    {
      auth.Valid() && !overlayShown
    }

    constructor (auth: Auth)
      requires auth.Valid()
      ensures this.auth == auth && Valid()
      ensures loading == [] && notices == [] && tables == map[] && caches == map[]
      ensures dashboard.None? && !modalOpen && passwordMessage.None?
    {
      this.auth := auth;
      overlayShown := false;
      loading := [];
      notices := [];
      tables := map[];
      caches := map[];
      dashboard := None;
      modalOpen := false;
      passwordMessage := None;
    }

    /** `showLoading`: show or hide the overlay. */
    method ShowLoading(show: bool)
      modifies this
      ensures overlayShown == show && loading == old(loading) + [show]
      ensures notices == old(notices) && tables == old(tables) && caches == old(caches)
      ensures dashboard == old(dashboard) && modalOpen == old(modalOpen) && passwordMessage == old(passwordMessage)
    {
      overlayShown := show;
      loading := loading + [show];
    }

    /** The body of a list loader after its call returns: render the rows
        and cache them, or report the failure when the call threw or a row
        could not be rendered. */
    method RenderList(kind: ListKind, reply: Reply)
      modifies this
      ensures tables == TablesAfterLoad(old(tables), kind, reply)
      ensures caches == CachesAfterLoad(old(caches), kind, reply)
      ensures notices == old(notices) + LoadNotices(reply)
      ensures overlayShown == old(overlayShown) && loading == old(loading)
      ensures dashboard == old(dashboard) && modalOpen == old(modalOpen) && passwordMessage == old(passwordMessage)
    {
      var rows := ListRows(reply);
      if rows.Some? {
        tables := tables[kind := rows.value];
        if IsCached(kind) {
          caches := caches[kind := rows.value];
        }
      } else {
        notices := notices + [Failed];
      }
    }

    /** `loadProducts`, `loadInventory`, `loadInbound`, `loadOutbound`,
        `loadSuppliers`, `loadCustomers`: fetch, render, cache, and hide the
        overlay whatever happened. */
    method LoadList(kind: ListKind, reply: Reply)
      requires auth.Valid()
      modifies this, auth
      ensures Valid()
      ensures auth.requests == old(auth.requests) + [Request(ListEndpoint(kind), "GET", old(auth.sessionToken), None)]
      ensures auth.SessionUnchanged() && auth.navigation == old(auth.navigation)
      ensures loading == old(loading) + [true, false]
      ensures tables == TablesAfterLoad(old(tables), kind, reply)
      ensures caches == CachesAfterLoad(old(caches), kind, reply)
      ensures notices == old(notices) + LoadNotices(reply)
      ensures dashboard == old(dashboard) && modalOpen == old(modalOpen) && passwordMessage == old(passwordMessage)
    {
      ShowLoading(true);
      auth.ApiCall(ListEndpoint(kind), "GET", None);
      RenderList(kind, reply);
      ShowLoading(false);
    }

    /** `loadDashboard`: a reply with `success: false` is reported and
        changes nothing shown; otherwise the monthly count is set and each
        panel is rendered, a null record in either panel is reported, and a
        panel whose rendering threw keeps what it showed. */
    method LoadDashboard(reply: Reply)
      requires Valid()
      modifies this, auth
      ensures Valid()
      ensures auth.requests == old(auth.requests) + [Request("dashboard", "GET", old(auth.sessionToken), None)]
      ensures auth.SessionUnchanged() && auth.navigation == old(auth.navigation)
      ensures loading == old(loading) + [true, false]
      ensures reply.CallFailed? ==> dashboard == old(dashboard) && notices == old(notices) + [Failed]
      ensures reply.Replied? ==>
                match DashboardOf(reply.body)
                case None => dashboard == old(dashboard) && notices == old(notices) + [Failed]
                case Some(d) =>
                  && dashboard == Some(Displayed(old(dashboard), d))
                  && notices == old(notices) + (if RenderingThrew(d) then [Failed] else [])
      ensures tables == old(tables) && caches == old(caches) && modalOpen == old(modalOpen)
      ensures passwordMessage == old(passwordMessage)
    {
      ShowLoading(true);
      auth.ApiCall("dashboard", "GET", None);
      if reply.CallFailed? {
        notices := notices + [Failed];
      } else {
        var d := DashboardOf(reply.body);
        if d.None? {
          notices := notices + [Failed];
        } else {
          dashboard := Some(Displayed(dashboard, d.value));
          if RenderingThrew(d.value) {
            notices := notices + [Failed];
          }
        }
      }
      ShowLoading(false);
    }

    /** `deleteProduct`, `deleteInbound`, `deleteOutbound`: nothing happens
        without an id or without confirmation; otherwise the delete is sent,
        a refusal is reported without reloading, an acceptance is reported
        and the list reloaded, and the overlay ends hidden. */
    method Delete(kind: RecordKind, id: string, confirmed: bool, reply: Reply, reloadReply: Reply)
      requires Valid()
      modifies this, auth
      ensures Valid()
      ensures id == "" || !confirmed ==> unchanged(this) && unchanged(auth)
      ensures auth.SessionUnchanged() && auth.navigation == old(auth.navigation)
      ensures modalOpen == old(modalOpen) && dashboard == old(dashboard) && passwordMessage == old(passwordMessage)
      ensures id != "" && confirmed && Declined(reply) ==>
                && auth.requests == old(auth.requests)
                     + [Request(ListEndpoint(RecordList(kind)), "DELETE", old(auth.sessionToken), Some([(RecordKey(kind), Text(id))]))]
                && loading == old(loading) + [true, false]
                && notices == old(notices) + [Failed]
                && tables == old(tables) && caches == old(caches)
      ensures id != "" && confirmed && !Declined(reply) ==>
                && auth.requests == old(auth.requests)
                     + [Request(ListEndpoint(RecordList(kind)), "DELETE", old(auth.sessionToken), Some([(RecordKey(kind), Text(id))])),
                        Request(ListEndpoint(RecordList(kind)), "GET", old(auth.sessionToken), None)]
                && loading == old(loading) + [true, true, false, false]
                && notices == old(notices) + [Succeeded] + LoadNotices(reloadReply)
                && tables == TablesAfterLoad(old(tables), RecordList(kind), reloadReply)
                && caches == CachesAfterLoad(old(caches), RecordList(kind), reloadReply)
    {
      if id == "" {
        return;
      }
      if !confirmed {
        return;
      }
      ShowLoading(true);
      auth.ApiCall(ListEndpoint(RecordList(kind)), "DELETE", Some([(RecordKey(kind), Text(id))]));
      if Declined(reply) {
        notices := notices + [Failed];
      } else {
        notices := notices + [Succeeded];
        LoadList(RecordList(kind), reloadReply);
      }
      ShowLoading(false);
    }

    /** `showAddProductModal`: the add-product form is shown. */
    method ShowAddProductModal()
      modifies this
      ensures modalOpen
      ensures overlayShown == old(overlayShown) && loading == old(loading) && notices == old(notices)
      ensures tables == old(tables) && caches == old(caches)
      ensures dashboard == old(dashboard) && passwordMessage == old(passwordMessage)
    {
      modalOpen := true;
    }

    /** The add-product callback: a malformed manual ID throws before any
        call; otherwise the body is posted, and unless the post is declined
        the products are reloaded. `accepted` is false exactly when the
        callback throws. */
    method SubmitProduct(payload: map<string, string>, reply: Reply, reloadReply: Reply)
      returns (accepted: bool)
      requires auth.Valid()
      modifies this, auth
      ensures auth.Valid() && auth.SessionUnchanged() && auth.navigation == old(auth.navigation)
      ensures accepted <==> ProductBody(payload).Success? && !Declined(reply)
      ensures ProductBody(payload).Failure? ==> auth.requests == old(auth.requests)
      ensures ProductBody(payload).Success? && Declined(reply) ==>
                auth.requests == old(auth.requests) + [Request("products", "POST", old(auth.sessionToken), Some(ProductBody(payload).value))]
      ensures !accepted ==>
                && overlayShown == old(overlayShown) && loading == old(loading)
                && notices == old(notices) && tables == old(tables) && caches == old(caches)
      ensures accepted ==>
                && auth.requests == old(auth.requests)
                     + [Request("products", "POST", old(auth.sessionToken), Some(ProductBody(payload).value)),
                        Request("products", "GET", old(auth.sessionToken), None)]
                && !overlayShown && loading == old(loading) + [true, false]
                && notices == old(notices) + LoadNotices(reloadReply)
                && tables == TablesAfterLoad(old(tables), Products, reloadReply)
                && caches == CachesAfterLoad(old(caches), Products, reloadReply)
      ensures modalOpen == old(modalOpen) && dashboard == old(dashboard) && passwordMessage == old(passwordMessage)
    {
      var body := ProductBody(payload);
      if body.Failure? {
        return false;
      }
      auth.ApiCall("products", "POST", Some(body.value));
      if Declined(reply) {
        return false;
      }
      LoadList(Products, reloadReply);
      accepted := true;
    }

    /** `setupFormHandler` around the add-product callback: the overlay is
        shown, and a callback that completes closes the form and is reported
        as a success, one that throws is reported as an error and leaves the
        form open; the overlay ends hidden. */
    method AddProduct(payload: map<string, string>, reply: Reply, reloadReply: Reply)
      returns (accepted: bool)
      requires Valid()
      modifies this, auth
      ensures Valid()
      ensures auth.SessionUnchanged() && auth.navigation == old(auth.navigation)
      ensures accepted <==> ProductBody(payload).Success? && !Declined(reply)
      ensures !accepted ==>
                && loading == old(loading) + [true, false]
                && notices == old(notices) + [Failed]
                && modalOpen == old(modalOpen) && tables == old(tables) && caches == old(caches)
      ensures accepted ==>
                && loading == old(loading) + [true, true, false, false]
                && notices == old(notices) + LoadNotices(reloadReply) + [Succeeded]
                && !modalOpen
                && tables == TablesAfterLoad(old(tables), Products, reloadReply)
                && caches == CachesAfterLoad(old(caches), Products, reloadReply)
      ensures dashboard == old(dashboard) && passwordMessage == old(passwordMessage)
    {
      ShowLoading(true);
      accepted := SubmitProduct(payload, reply, reloadReply);
      if accepted {
        modalOpen := false;
        notices := notices + [Succeeded];
      } else {
        notices := notices + [Failed];
      }
      ShowLoading(false);
    }

    /** The change-password submit handler: the guards report and stop before
        the overlay is shown; otherwise `auth.changePassword` is called with
        the checked fields (its reply is a parameter) and the overlay ends
        hidden. */
    method SubmitPasswordChange(oldRaw: string, newRaw: string, targetIdRaw: string, targetNameRaw: string, reply: Reply)
      returns (sent: Option<PasswordChange>)
      requires Valid()
      modifies this
      ensures Valid()
      ensures var r := ChangePasswordRequest(auth.userInfo, oldRaw, newRaw, targetIdRaw, targetNameRaw);
              && (r.Failure? ==> sent.None? && loading == old(loading) && passwordMessage.None?
                                 && notices == old(notices) + [GuardNotice(r.error)])
              && (r.Success? ==> sent == Some(r.value) && loading == old(loading) + [true, false])
      ensures sent.Some? ==> passwordMessage == ChangeMessage(reply) && notices == old(notices) + ChangeNotices(reply)
      ensures tables == old(tables) && caches == old(caches) && dashboard == old(dashboard) && modalOpen == old(modalOpen)
    {
      passwordMessage := None;
      var r := ChangePasswordRequest(auth.userInfo, oldRaw, newRaw, targetIdRaw, targetNameRaw);
      if r.Failure? {
        notices := notices + [GuardNotice(r.error)];
        return None;
      }
      sent := Some(r.value);
      ShowLoading(true);
      passwordMessage := ChangeMessage(reply);
      notices := notices + ChangeNotices(reply);
      ShowLoading(false);
    }
  }
}
