/**
 * The pure helpers of the page controllers: normalising a reply into a list,
 * the product ID rule and the product body, the low-stock flag, the
 * dashboard's monthly count and activity list, and the guards of the
 * change-password form.
 */
module App {
  import opened Base
  import opened JsText
  import opened Json
  import opened Api
  import opened UserCodec

  // ---------------------------------------------------------------- asList

  /** The items of the first of `keys` whose value is an array. */
  function FirstArray(res: Json, keys: seq<string>): Option<seq<Json>> {
    if keys == [] then None
    else if IsArray(Get(res, keys[0])) then Some(Get(res, keys[0]).value.items)
    else FirstArray(res, keys[1..])
  }

  /** `asList`: a reply as a list of rows. */
  function AsList(res: Json): seq<Json> {
    if !Truthy(Some(res)) then []
    else if res.JArr? then res.items
    else if Truthy(Get(res, "data")) && IsArray(Get(res, "data")) then Get(res, "data").value.items
    else if IsArray(Get(res, "result")) then Get(res, "result").value.items
    else if IsArray(Get(res, "items")) then Get(res, "items").value.items
    else []
  }

  /** A falsy reply is no rows, an array is its own rows, and any other reply
      yields the first array among `data`, `result` and `items`, or no rows. */
  lemma AsListCases(res: Json)
    ensures !Truthy(Some(res)) ==> AsList(res) == []
    ensures res.JArr? ==> AsList(res) == res.items
    ensures Truthy(Some(res)) && !res.JArr? ==>
              AsList(res) == match FirstArray(res, ["data", "result", "items"]) case Some(l) => l case None => []
  {
    if Truthy(Some(res)) && !res.JArr? {
      var keys := ["data", "result", "items"];
      var k1 := keys[1..];
      var k2 := k1[1..];
      assert keys[0] == "data" && k1[0] == "result" && k2[0] == "items" && k2[1..] == [];
      if IsArray(Get(res, "data")) {
        assert FirstArray(res, keys) == Some(Get(res, "data").value.items);
      } else {
        assert FirstArray(res, keys) == FirstArray(res, k1);
        if !IsArray(Get(res, "result")) {
          assert FirstArray(res, k1) == FirstArray(res, k2);
          if !IsArray(Get(res, "items")) {
            assert FirstArray(res, k2) == FirstArray(res, []);
          }
        }
      }
    }
  }

  // ------------------------------------------------------------ product ID

  predicate IsIdChar(c: char) {
    'A' <= c <= 'Z' || '0' <= c <= '9' || c == '-'
  }

  /** `/^[A-Z0-9\-]{3,20}$/`. */
  predicate ValidProductId(id: string) {
    3 <= |id| <= 20 && forall i :: 0 <= i < |id| ==> IsIdChar(id[i])
  }

  /** A manually entered ID as it is checked and sent: trimmed, then upper-cased. */
  function NormalizeProductId(raw: string): string {
    ToUpper(Trim(raw))
  }

  lemma {:induction false} ToUpperAppend(a: string, b: string)
    ensures ToUpper(a + b) == ToUpper(a) + ToUpper(b)
    decreases |a|
  {
    if a == [] {
      assert a + b == b;
    } else {
      assert (a + b)[0] == a[0];
      assert (a + b)[1..] == a[1..] + b;
      ToUpperAppend(a[1..], b);
    }
  }

  lemma {:induction false} ToUpperOfIdChars(s: string)
    requires forall i :: 0 <= i < |s| ==> IsIdChar(s[i])
    ensures ToUpper(s) == s
    decreases |s|
  {
    if s != [] {
      ToUpperOfIdChars(s[1..]);
    }
  }

  /** Every character `toUpperCase` writes is left alone by it. */
  lemma UpperCharFixed(c: char)
    ensures forall i :: 0 <= i < |UpperChar(c)| ==> UpperChar(UpperChar(c)[i]) == [UpperChar(c)[i]]
  {
  }

  lemma {:induction false} ToUpperIdempotent(s: string)
    ensures ToUpper(ToUpper(s)) == ToUpper(s)
    decreases |s|
  {
    if s != [] {
      var u := UpperChar(s[0]);
      UpperCharFixed(s[0]);
      ToUpperOfFixed(u);
      ToUpperAppend(u, ToUpper(s[1..]));
      ToUpperIdempotent(s[1..]);
    }
  }

  lemma {:induction false} ToUpperOfFixed(s: string)
    requires forall i :: 0 <= i < |s| ==> UpperChar(s[i]) == [s[i]]
    ensures ToUpper(s) == s
    decreases |s|
  {
    if s != [] {
      ToUpperOfFixed(s[1..]);
    }
  }

  /** Upper-casing a character that is not whitespace writes no whitespace. */
  lemma UpperCharNoSpace(c: char, i: nat)
    requires !IsJsSpace(c) && i < |UpperChar(c)|
    ensures !IsJsSpace(UpperChar(c)[i])
  {
  }

  lemma UpperKeepsStart(t: string)
    requires NoSpaceAtStart(t)
    ensures NoSpaceAtStart(ToUpper(t))
  {
    if t != [] {
      UpperCharNoSpace(t[0], 0);
    }
  }

  lemma UpperKeepsEnd(t: string)
    requires NoSpaceAtEnd(t)
    ensures NoSpaceAtEnd(ToUpper(t))
  {
    if t != [] {
      var n := |t|;
      var c := t[n - 1];
      var l := UpperChar(c);
      ToUpperAppend(t[..n - 1], [c]);
      assert t[..n - 1] + [c] == t;
      assert ToUpper([c]) == l + ToUpper([]);
      UpperCharNoSpace(c, |l| - 1);
    }
  }

  /** Upper-casing never puts whitespace at either end of a trimmed string. */
  lemma TrimOfUpper(t: string)
    requires NoSpaceAtStart(t) && NoSpaceAtEnd(t)
    ensures Trim(ToUpper(t)) == ToUpper(t)
  {
    UpperKeepsStart(t);
    UpperKeepsEnd(t);
    TrimOfTrimmed(ToUpper(t));
  }

  /** A valid ID is already in normal form. */
  lemma ValidIdIsNormal(id: string)
    requires ValidProductId(id)
    ensures NormalizeProductId(id) == id
  {
    TrimOfTrimmed(id);
    ToUpperOfIdChars(id);
  }

  /** Normalising an ID twice is normalising it once. */
  lemma NormalizeIdempotent(raw: string)
    ensures NormalizeProductId(NormalizeProductId(raw)) == NormalizeProductId(raw)
  {
    TrimOfUpper(Trim(raw));
    ToUpperIdempotent(Trim(raw));
  }

  // ---------------------------------------------------------- product body

  const PRODUCT_ID := "商品ID"

  datatype ProductError = InvalidProductId

  /** `(payload[key] || '').trim()`: a missing field is the empty string. */
  function TextField(payload: map<string, string>, key: string): string {
    if key in payload then Trim(payload[key]) else ""
  }

  /** The manually entered ID after normalisation; empty when none was entered. */
  function ManualId(payload: map<string, string>): string {
    NormalizeProductId(if PRODUCT_ID in payload then payload[PRODUCT_ID] else "")
  }

  /** The text fields of the product body, in the order they are sent. */
  const PRODUCT_TEXT_FIELDS: seq<string> := ["商品名稱", "商品分類", "規格", "單位", "備註"]

  function ProductTextEntries(payload: map<string, string>): seq<(string, Value)> {
    seq(|PRODUCT_TEXT_FIELDS|, i requires 0 <= i < |PRODUCT_TEXT_FIELDS| =>
      (PRODUCT_TEXT_FIELDS[i], Text(TextField(payload, PRODUCT_TEXT_FIELDS[i]))))
  }

  /** The body the add-product form sends, or the rejection of a malformed
      manual ID. The four numeric fields are not part of this model. */
  function ProductBody(payload: map<string, string>): Result<seq<(string, Value)>, ProductError> {
    var id := ManualId(payload);
    if id != "" && !ValidProductId(id) then Failure(InvalidProductId)
    else Success((if id != "" then [(PRODUCT_ID, Text(id))] else []) + ProductTextEntries(payload))
  }

  predicate IsTrimmed(s: string) {
    NoSpaceAtStart(s) && NoSpaceAtEnd(s)
  }

  /** The add-product form is rejected exactly when a manual ID was entered
      that does not fit the ID rule. */
  lemma ProductBodyRejects(payload: map<string, string>)
    ensures ProductBody(payload).Failure? <==> ManualId(payload) != "" && !ValidProductId(ManualId(payload))
  {
  }

  lemma TextEntriesShape(payload: map<string, string>)
    ensures var text := ProductTextEntries(payload);
            forall i :: 0 <= i < |text| ==> text[i].0 != PRODUCT_ID && text[i].1.Text? && IsTrimmed(text[i].1.s)
  {
    var text := ProductTextEntries(payload);
    forall i | 0 <= i < |text|
      ensures text[i].0 != PRODUCT_ID && text[i].1.Text? && IsTrimmed(text[i].1.s)
    {
      assert text[i].0 == PRODUCT_TEXT_FIELDS[i];
      assert PRODUCT_TEXT_FIELDS[i] != PRODUCT_ID;
    }
  }

  lemma ValidIdIsTrimmed(id: string)
    requires ValidProductId(id)
    ensures IsTrimmed(id)
  {
    assert IsIdChar(id[0]) && IsIdChar(id[|id| - 1]);
  }

  /** A text field is the trimmed input, or the empty string when the form
      sent no such field. */
  lemma TextFieldValue(payload: map<string, string>, key: string)
    ensures key !in payload ==> TextField(payload, key) == ""
    ensures key in payload ==> TextField(payload, key) == Trim(payload[key])
  {
  }

  /** An accepted body carries the ID only when one was entered, and then
      first, in normal form and valid; after it come the five text fields in
      their order, each the trimmed input or the empty string. */
  lemma ProductBodyAccepted(payload: map<string, string>)
    requires ProductBody(payload).Success?
    ensures var body := ProductBody(payload).value;
            var off := if ManualId(payload) != "" then 1 else 0;
            && |body| == off + |PRODUCT_TEXT_FIELDS|
            && (ManualId(payload) == "" ==> forall i :: 0 <= i < |body| ==> body[i].0 != PRODUCT_ID)
            && (ManualId(payload) != "" ==>
                  && body[0] == (PRODUCT_ID, Text(ManualId(payload)))
                  && ValidProductId(body[0].1.s)
                  && NormalizeProductId(body[0].1.s) == body[0].1.s)
            && forall i :: 0 <= i < |PRODUCT_TEXT_FIELDS| ==>
                 body[off + i] == (PRODUCT_TEXT_FIELDS[i], Text(TextField(payload, PRODUCT_TEXT_FIELDS[i])))
  {
    var id := ManualId(payload);
    var text := ProductTextEntries(payload);
    var off := if id != "" then 1 else 0;
    var body := (if id != "" then [(PRODUCT_ID, Text(id))] else []) + text;
    assert ProductBody(payload).value == body;
    assert |body| == off + |text|;
    forall i | 0 <= i < |PRODUCT_TEXT_FIELDS|
      ensures body[off + i] == (PRODUCT_TEXT_FIELDS[i], Text(TextField(payload, PRODUCT_TEXT_FIELDS[i])))
    {
      assert body[off + i] == text[i];
    }
    if id == "" {
      TextEntriesShape(payload);
      assert body == text;
    } else {
      ValidIdIsNormal(id);
    }
  }

  /** Every value an accepted body carries is trimmed text. */
  lemma ProductBodyTrimmed(payload: map<string, string>)
    requires ProductBody(payload).Success?
    ensures var body := ProductBody(payload).value;
            forall i :: 0 <= i < |body| ==> body[i].1.Text? && IsTrimmed(body[i].1.s)
  {
    var id := ManualId(payload);
    var text := ProductTextEntries(payload);
    var body := ProductBody(payload).value;
    TextEntriesShape(payload);
    if id == "" {
      assert body == text;
    } else {
      assert body == [(PRODUCT_ID, Text(id))] + text;
      ValidIdIsTrimmed(id);
      assert forall i :: 1 <= i < |body| ==> body[i] == text[i - 1];
    }
  }

  // ------------------------------------------------------------- low stock

  const CURRENT_STOCK := "當前庫存"
  const MIN_STOCK := "最低庫存"

  /** `parseInt(item[key]) || 0`. */
  function StockLevel(item: Json, key: string): int {
    IntOrZero(FieldText(Get(item, key)))
  }

  /** The inventory table's danger flag: current stock below the minimum. */
  predicate LowStock(item: Json) {
    StockLevel(item, CURRENT_STOCK) < StockLevel(item, MIN_STOCK)
  }

  /** A stored number is read as itself. */
  lemma StockLevelOfNumber(item: Json, key: string, n: int)
    requires Get(item, key) == Some(JNum(n))
    ensures StockLevel(item, key) == n
  {
    ParseIntOfDecimal(n, []);
    assert IntToDecimal(n) + [] == IntToDecimal(n);
  }

  /** Text is read up to its first non-digit: "12 pcs" is 12. */
  lemma StockLevelOfText(item: Json, key: string, n: int, rest: string)
    requires Get(item, key) == Some(JStr(IntToDecimal(n) + rest))
    requires rest == [] || !IsDecDigit(rest[0])
    requires n == 0 ==> rest == [] || (rest[0] != 'x' && rest[0] != 'X')
    ensures StockLevel(item, key) == n
  {
    ParseIntOfDecimal(n, rest);
  }

  /** A missing or null field reads as 0. */
  lemma StockLevelOfNothing(item: Json, key: string)
    requires Get(item, key).None? || Get(item, key) == Some(JNull)
    ensures StockLevel(item, key) == 0
  {
    var t := FieldText(Get(item, key));
    assert t[0] == 'u' || t[0] == 'n';
    ParseIntOfNonSpace(t);
    assert LeadingDigits(t, 10) == [];
  }

  /** With both levels stored as numbers, the flag is `current < minimum`. */
  lemma LowStockOfNumbers(item: Json, current: int, minimum: int)
    requires Get(item, CURRENT_STOCK) == Some(JNum(current)) && Get(item, MIN_STOCK) == Some(JNum(minimum))
    ensures LowStock(item) <==> current < minimum
  {
    StockLevelOfNumber(item, CURRENT_STOCK, current);
    StockLevelOfNumber(item, MIN_STOCK, minimum);
  }

  /** An item without a current level is low exactly when its minimum is positive. */
  lemma LowStockWithoutCurrent(item: Json, minimum: int)
    requires Get(item, CURRENT_STOCK).None? && Get(item, MIN_STOCK) == Some(JNum(minimum))
    ensures LowStock(item) <==> 0 < minimum
  {
    StockLevelOfNothing(item, CURRENT_STOCK);
    StockLevelOfNumber(item, MIN_STOCK, minimum);
  }

  // ------------------------------------------------------------- dashboard

  /** `v ?? d`: only undefined and null are replaced. */
  function Coalesce(v: Option<Json>, d: Json): (r: Json)
    ensures v.Some? && !v.value.JNull? ==> r == v.value
    ensures v.None? || v == Some(JNull) ==> r == d
  {
    if v.None? || v.value.JNull? then d else v.value
  }

  /** The dashboard's monthly transaction count: inbound plus outbound, a
      missing count read as 0. None when a count is present but is not a
      number (JavaScript's `+` would then concatenate or give NaN). */
  function MonthlyTransactions(res: Json): Option<int> {
    var stats := Get(res, "monthlyStats");
    var a := Coalesce(GetIn(stats, "inboundCount"), JNum(0));
    var b := Coalesce(GetIn(stats, "outboundCount"), JNum(0));
    if a.JNum? && b.JNum? then Some(a.n + b.n) else None
  }

  /** Two numeric counts are added; a missing or null count adds nothing. */
  lemma MonthlyTransactionsSum(res: Json, inbound: Option<int>, outbound: Option<int>)
    requires var stats := Get(res, "monthlyStats");
             && (if inbound.Some? then GetIn(stats, "inboundCount") == Some(JNum(inbound.value))
                 else GetIn(stats, "inboundCount").None? || GetIn(stats, "inboundCount") == Some(JNull))
             && (if outbound.Some? then GetIn(stats, "outboundCount") == Some(JNum(outbound.value))
                 else GetIn(stats, "outboundCount").None? || GetIn(stats, "outboundCount") == Some(JNull))
    ensures MonthlyTransactions(res)
         == Some((if inbound.Some? then inbound.value else 0) + (if outbound.Some? then outbound.value else 0))
  {
  }

  /** One line of the recent-activity panel. */
  datatype Activity = Activity(icon: string, text: string, date: Json)

  /** `v || ''` inside a template literal. */
  function OrEmpty(v: Option<Json>): string {
    FieldText(Or(v, Some(JStr(""))))
  }

  /** The activity line of an inbound (`inbound`) or outbound record. */
  function ActivityOf(x: Json, inbound: bool): Activity {
    var name := OrEmpty(Or(Get(x, "商品名稱"), Get(x, "商品ID")));
    if inbound then
      Activity("fa-truck", "進貨 " + name + " × " + OrEmpty(Get(x, "進貨數量")),
               Or(Get(x, "進貨日期"), Some(JStr(""))).value)
    else
      Activity("fa-shipping-fast", "出貨 " + name + " × " + OrEmpty(Get(x, "出貨數量")),
               Or(Get(x, "出貨日期"), Some(JStr(""))).value)
  }

  /** The activity lines of a list of records, in order; None when a record
      is null, where reading its fields throws. */
  function Activities(xs: seq<Json>, inbound: bool): (r: Option<seq<Activity>>)
    ensures r.Some? <==> forall i :: 0 <= i < |xs| ==> !xs[i].JNull?
    ensures r.Some? ==> |r.value| == |xs| && forall i :: 0 <= i < |xs| ==> r.value[i] == ActivityOf(xs[i], inbound)
  {
    if xs == [] then Some([])
    else if xs[0].JNull? then None
    else match Activities(xs[1..], inbound)
      case None => None
      case Some(rest) => Some([ActivityOf(xs[0], inbound)] + rest)
  }

  /** `Array.isArray(v) ? v : []`. */
  function ArrayOrEmpty(v: Option<Json>): seq<Json> {
    if IsArray(v) then v.value.items else []
  }

  /** The recent-activity panel: every inbound record, then every outbound record. */
  function RecentActivity(res: Json): Option<seq<Activity>> {
    var a :- Activities(ArrayOrEmpty(Get(res, "recentInbound")), true);
    var b :- Activities(ArrayOrEmpty(Get(res, "recentOutbound")), false);
    Some(a + b)
  }

  /** The panel lists all inbound records in order, followed by all outbound
      records in order, one line each. */
  lemma RecentActivityLayout(res: Json)
    requires RecentActivity(res).Some?
    ensures var ins := ArrayOrEmpty(Get(res, "recentInbound"));
            var outs := ArrayOrEmpty(Get(res, "recentOutbound"));
            var r := RecentActivity(res).value;
            && |r| == |ins| + |outs|
            && (forall i :: 0 <= i < |ins| ==> r[i] == ActivityOf(ins[i], true))
            && (forall j :: 0 <= j < |outs| ==> r[|ins| + j] == ActivityOf(outs[j], false))
  {
    var ins := ArrayOrEmpty(Get(res, "recentInbound"));
    var outs := ArrayOrEmpty(Get(res, "recentOutbound"));
    var a := Activities(ins, true).value;
    var b := Activities(outs, false).value;
    assert RecentActivity(res).value == a + b;
    assert forall j :: 0 <= j < |outs| ==> (a + b)[|ins| + j] == b[j];
  }

  /** One line of the low-stock panel: the item's name, and its current and
      minimum levels as shown. */
  datatype LowStockLine = LowStockLine(name: string, current: string, minimum: string)

  /** The line of a low-stock record: the name, else the ID, else a dash;
      each level, or 0 when it is missing or null. */
  function LowStockLineOf(x: Json): LowStockLine {
    LowStockLine(FieldText(Or(Or(Get(x, "商品名稱"), Get(x, "商品ID")), Some(JStr("—")))),
                 JsString(Coalesce(Get(x, CURRENT_STOCK), JNum(0))),
                 JsString(Coalesce(Get(x, MIN_STOCK), JNum(0))))
  }

  /** A level the record holds is shown as it is; a missing or null one is
      shown as 0. */
  lemma LowStockLineLevels(x: Json)
    ensures var line := LowStockLineOf(x);
            && (Get(x, CURRENT_STOCK).None? || Get(x, CURRENT_STOCK) == Some(JNull) ==> line.current == "0")
            && (Get(x, CURRENT_STOCK).Some? && !Get(x, CURRENT_STOCK).value.JNull? ==>
                  line.current == JsString(Get(x, CURRENT_STOCK).value))
            && (Get(x, MIN_STOCK).None? || Get(x, MIN_STOCK) == Some(JNull) ==> line.minimum == "0")
            && (Get(x, MIN_STOCK).Some? && !Get(x, MIN_STOCK).value.JNull? ==>
                  line.minimum == JsString(Get(x, MIN_STOCK).value))
  {
    assert JsString(JNum(0)) == "0" by {
      assert IntToDecimal(0) == [DigitChar(0)];
    }
  }

  /** The lines of the low-stock panel, in order; None when a record is null,
      where reading its fields throws. */
  function LowStockLines(xs: seq<Json>): (r: Option<seq<LowStockLine>>)
    ensures r.Some? <==> forall i :: 0 <= i < |xs| ==> !xs[i].JNull?
    ensures r.Some? ==> |r.value| == |xs| && forall i :: 0 <= i < |xs| ==> r.value[i] == LowStockLineOf(xs[i])
  {
    if xs == [] then Some([])
    else if xs[0].JNull? then None
    else match LowStockLines(xs[1..])
      case None => None
      case Some(rest) => Some([LowStockLineOf(xs[0])] + rest)
  }

  /** The dashboard's monthly figure and its two panels. As the outcome of
      rendering one reply (`DashboardOf`), a panel whose rendering throws is
      None, and so is the panel after it, which is then not rendered. As what
      the page shows (`Displayed`), a None panel is one no load has rendered
      yet. */
  datatype Dashboard = Dashboard(
    monthly: Option<int>, activity: Option<seq<Activity>>, lowStock: Option<seq<LowStockLine>>)

  function DashboardOf(res: Json): Option<Dashboard> {
    if Get(res, "success") == Some(JBool(false)) then None
    else
      var activity := RecentActivity(res);
      var lowStock := if activity.None? then None else LowStockLines(ArrayOrEmpty(Get(res, "lowStockInventory")));
      Some(Dashboard(MonthlyTransactions(res), activity, lowStock))
  }

  /** Rendering the dashboard threw, and the error is reported. */
  predicate RenderingThrew(d: Dashboard) {
    d.activity.None? || d.lowStock.None?
  }

  /** What the page shows after a load rendered `d` over what it showed
      before: the monthly figure is always replaced, since it is written
      before either panel, while a panel whose rendering threw keeps what it
      showed, since the throw comes before its `innerHTML` is assigned. */
  function Displayed(shown: Option<Dashboard>, d: Dashboard): Dashboard {
    var before := if shown.Some? then shown.value else Dashboard(None, None, None);
    Dashboard(d.monthly,
              if d.activity.Some? then d.activity else before.activity,
              if d.lowStock.Some? then d.lowStock else before.lowStock)
  }

  /** After a load: the monthly figure is the reply's; the activity panel
      lists every inbound then every outbound record when none is null, and
      otherwise keeps what it showed; the low-stock panel lists every record
      when neither panel holds a null record, and otherwise keeps what it
      showed. */
  lemma DashboardShown(shown: Option<Dashboard>, res: Json)
    requires DashboardOf(res).Some?
    ensures var e := Displayed(shown, DashboardOf(res).value);
            var before := if shown.Some? then shown.value else Dashboard(None, None, None);
            var ins := ArrayOrEmpty(Get(res, "recentInbound"));
            var outs := ArrayOrEmpty(Get(res, "recentOutbound"));
            var low := ArrayOrEmpty(Get(res, "lowStockInventory"));
            var activityRenders := (forall i :: 0 <= i < |ins| ==> !ins[i].JNull?)
                                   && (forall j :: 0 <= j < |outs| ==> !outs[j].JNull?);
            var lowRenders := forall k :: 0 <= k < |low| ==> !low[k].JNull?;
            && e.monthly == MonthlyTransactions(res)
            && (activityRenders ==>
                  && e.activity.Some? && |e.activity.value| == |ins| + |outs|
                  && (forall i :: 0 <= i < |ins| ==> e.activity.value[i] == ActivityOf(ins[i], true))
                  && (forall j :: 0 <= j < |outs| ==> e.activity.value[|ins| + j] == ActivityOf(outs[j], false)))
            && (!activityRenders ==> e.activity == before.activity)
            && (activityRenders && lowRenders ==>
                  && e.lowStock.Some? && |e.lowStock.value| == |low|
                  && forall k :: 0 <= k < |low| ==> e.lowStock.value[k] == LowStockLineOf(low[k]))
            && (!(activityRenders && lowRenders) ==> e.lowStock == before.lowStock)
  {
    var ins := ArrayOrEmpty(Get(res, "recentInbound"));
    var outs := ArrayOrEmpty(Get(res, "recentOutbound"));
    var a := Activities(ins, true);
    var b := Activities(outs, false);
    if RecentActivity(res).Some? {
      RecentActivityLayout(res);
    }
  }

  /** Rendering throws exactly when a recent-activity record or a low-stock
      record is null; otherwise both panels list every record. */
  lemma DashboardPanels(res: Json)
    requires DashboardOf(res).Some?
    ensures var d := DashboardOf(res).value;
            var ins := ArrayOrEmpty(Get(res, "recentInbound"));
            var outs := ArrayOrEmpty(Get(res, "recentOutbound"));
            var low := ArrayOrEmpty(Get(res, "lowStockInventory"));
            && (RenderingThrew(d) <==>
                  || (exists i :: 0 <= i < |ins| && ins[i].JNull?)
                  || (exists i :: 0 <= i < |outs| && outs[i].JNull?)
                  || (exists i :: 0 <= i < |low| && low[i].JNull?))
            && (!RenderingThrew(d) ==> |d.activity.value| == |ins| + |outs| && |d.lowStock.value| == |low|)
  {
    var ins := ArrayOrEmpty(Get(res, "recentInbound"));
    var outs := ArrayOrEmpty(Get(res, "recentOutbound"));
    var a := Activities(ins, true);
    var b := Activities(outs, false);
  }

  // ------------------------------------------------------- change password

  /** The fields handed to `auth.changePassword`; None is `undefined`. */
  datatype PasswordChange = PasswordChange(
    oldPassword: Option<string>, newPassword: string,
    targetUserId: Option<string>, targetUsername: Option<string>)

  datatype ChangeRejection = OnlyAdminMayTarget | NewPasswordTooShort

  predicate IsAdmin(me: Option<User>) {
    me.Some? && me.value.role == "admin"
  }

  /** `s || undefined`. */
  function NonEmpty(s: string): Option<string> {
    if s == "" then None else Some(s)
  }

  /** The change-password submit handler up to the call: every field is
      trimmed; a non-admin naming a target is refused, then a new password
      shorter than 8 is refused; the targets are passed only for an admin. */
  function ChangePasswordRequest(me: Option<User>, oldRaw: string, newRaw: string, targetIdRaw: string,
                                 targetNameRaw: string): Result<PasswordChange, ChangeRejection> {
    var oldPassword := Trim(oldRaw);
    var newPassword := Trim(newRaw);
    var targetUserId := Trim(targetIdRaw);
    var targetUsername := Trim(targetNameRaw);
    if !IsAdmin(me) && (targetUserId != "" || targetUsername != "") then Failure(OnlyAdminMayTarget)
    else if newPassword == "" || JsLength(newPassword) < 8 then Failure(NewPasswordTooShort)
    else Success(PasswordChange(
      NonEmpty(oldPassword), newPassword,
      if IsAdmin(me) then NonEmpty(targetUserId) else None,
      if IsAdmin(me) then NonEmpty(targetUsername) else None))
  }

  /** Only an admin can name another user, and the new password sent is the
      trimmed input, at least 8 UTF-16 units long. */
  lemma ChangePasswordGuards(me: Option<User>, oldRaw: string, newRaw: string, targetIdRaw: string, targetNameRaw: string)
    ensures var r := ChangePasswordRequest(me, oldRaw, newRaw, targetIdRaw, targetNameRaw);
            && (!IsAdmin(me) && (Trim(targetIdRaw) != "" || Trim(targetNameRaw) != "") ==> r == Failure(OnlyAdminMayTarget))
            && (r.Success? ==> r.value.newPassword == Trim(newRaw) && JsLength(r.value.newPassword) >= 8)
            && (r.Success? && !IsAdmin(me) ==> r.value.targetUserId.None? && r.value.targetUsername.None?)
            && (r.Failure? <==> (!IsAdmin(me) && (Trim(targetIdRaw) != "" || Trim(targetNameRaw) != ""))
                                || JsLength(Trim(newRaw)) < 8)
  {
  }
}
