/**
 * What the transfer table draws for one page of transfers: the badge colours,
 * the choice of amount format, the cell drawn for each column key, and the
 * header and body rows built from the displayed columns plus the fixed
 * Actions column. Markup and styling are reduced to the data each cell shows.
 */
module TableRender {
  import opened Wrappers
  import opened ColumnConfig

  /**
   * One transfer record as the page supplies it. Type, status and method arrive
   * as text; type and status values outside their enumerations are drawn in grey,
   * and the method is drawn as given.
   */
  datatype Transfer = Transfer(
    id: string,
    beneficiaryName: string,
    beneficiaryId: string,
    amount: real,
    currency: string,
    transferType: string,
    status: string,
    transferMethod: string,
    fee: real,
    createdAt: string)

  // ---------------------------------------------------------------------------
  // Badge colours.

  datatype Colour = Green | Blue | Yellow | Red | Grey

  const KnownStatuses: set<string> := {"completed", "processing", "pending", "failed"}
  const KnownTypes: set<string> := {"PAYIN", "PAYOUT", "Invoice"}

  /** The status badge colour; any status outside the four known ones is grey. */
  function StatusColour(status: string): (c: Colour)
    ensures c == Green <==> status == "completed"
    ensures c == Blue <==> status == "processing"
    ensures c == Yellow <==> status == "pending"
    ensures c == Red <==> status == "failed"
    ensures c == Grey <==> status !in KnownStatuses
  {
    if status == "completed" then Green
    else if status == "processing" then Blue
    else if status == "pending" then Yellow
    else if status == "failed" then Red
    else Grey
  }

  /** The type badge colour; matching is case-sensitive and any other type is grey. */
  function TypeColour(transferType: string): (c: Colour)
    ensures c == Green <==> transferType == "PAYIN"
    ensures c == Red <==> transferType == "PAYOUT"
    ensures c == Blue <==> transferType == "Invoice"
    ensures c == Grey <==> transferType !in KnownTypes
    ensures c != Yellow
  {
    if transferType == "PAYIN" then Green
    else if transferType == "PAYOUT" then Red
    else if transferType == "Invoice" then Blue
    else Grey
  }

  // ---------------------------------------------------------------------------
  // Amount formatting.

  /** The currency codes drawn as a plain number followed by the code. */
  const CryptoCodes: seq<string> := ["USDT", "BTC", "ETH", "USDC", "BNB", "ADA", "DOT", "MATIC"]

  function UpperChar(ch: char): char
  {
    if 'a' <= ch <= 'z' then (ch as int - 'a' as int + 'A' as int) as char else ch
  }

  /** Upper-casing, for the ASCII letters: no lower-case ASCII letter is left and nothing else changes. */
  function ToUpper(s: string): (r: string)
    ensures |r| == |s|
    ensures forall i :: 0 <= i < |s| ==> !('a' <= r[i] <= 'z')
    ensures forall i :: 0 <= i < |s| ==> r[i] == s[i] || ('a' <= s[i] <= 'z' && r[i] as int == s[i] as int - 32)
  {
    seq(|s|, i requires 0 <= i < |s| => UpperChar(s[i]))
  }

  /**
   * Whether the amount of this currency takes the crypto path: the currency
   * matches one of the eight codes letter by letter, ignoring case.
   */
  predicate IsCrypto(currency: string)
    ensures IsCrypto(currency) <==>
              exists code :: code in CryptoCodes && |code| == |currency| &&
                forall i :: 0 <= i < |code| ==> UpperChar(currency[i]) == code[i]
    ensures IsCrypto(currency) ==> 3 <= |currency| <= 5
  {
    var u := ToUpper(currency);
    if u in CryptoCodes then
      assert |u| == |currency| && forall i :: 0 <= i < |u| ==> UpperChar(currency[i]) == u[i];
      u in CryptoCodes
    else
      forall code | code in CryptoCodes && |code| == |currency|
        ensures !(forall i :: 0 <= i < |code| ==> UpperChar(currency[i]) == code[i])
      {
        assert code != u;
      }
      false
  }

  /**
   * The number formatting the table borrows from the platform, which this model
   * does not see: a two-fraction-digit rendering of a number, and a locale
   * currency rendering that fails (None) for a code the platform rejects.
   */
  datatype NumberFormat = NumberFormat(fixed2: real -> string, asCurrency: (real, string) -> Option<string>)

  /** An amount as drawn: either "number code" or the platform's currency text. */
  datatype AmountText = Plain(number: string, code: string) | Localised(text: string)

  function AmountString(a: AmountText): string
  {
    match a
    case Plain(number, code) => number + " " + code
    case Localised(text) => text
  }

  /**
   * The amount cell's text. Crypto codes and codes the currency formatter rejects
   * both give the two-decimal number, a space and the currency exactly as stored.
   */
  function FormatAmount(amount: real, currency: string, fmt: NumberFormat): (r: AmountText)
    ensures r.Plain? <==> IsCrypto(currency) || fmt.asCurrency(amount, currency).None?
    ensures r.Plain? ==> r.number == fmt.fixed2(amount) && r.code == currency
    ensures r.Localised? ==> fmt.asCurrency(amount, currency) == Some(r.text)
  {
    if IsCrypto(currency) then Plain(fmt.fixed2(amount), currency)
    else
      match fmt.asCurrency(amount, currency)
      case Some(text) => Localised(text)
      case None => Plain(fmt.fixed2(amount), currency)
  }

  lemma UpperCharIdempotent(ch: char)
    ensures UpperChar(UpperChar(ch)) == UpperChar(ch)
  {
  }

  /** The crypto test ignores letter case: "btc", "Btc" and "BTC" all qualify. */
  lemma CryptoIgnoresCase(currency: string)
    ensures IsCrypto(ToUpper(currency)) == IsCrypto(currency)
    ensures IsCrypto("btc") && IsCrypto("Btc") && !IsCrypto("USD")
  {
    var u := ToUpper(currency);
    forall i | 0 <= i < |u| ensures ToUpper(u)[i] == u[i] {
      UpperCharIdempotent(currency[i]);
    }
    assert ToUpper(u) == u;
    assert ToUpper("btc") == "BTC";
    assert ToUpper("Btc") == "BTC";
    assert ToUpper("USD") == "USD";
  }

  /** For a crypto code the locale currency formatter is never consulted. */
  lemma CryptoIgnoresLocale(amount: real, currency: string, fixed2: real -> string,
                            cur1: (real, string) -> Option<string>, cur2: (real, string) -> Option<string>)
    requires IsCrypto(currency)
    ensures FormatAmount(amount, currency, NumberFormat(fixed2, cur1))
         == FormatAmount(amount, currency, NumberFormat(fixed2, cur2))
    ensures AmountString(FormatAmount(amount, currency, NumberFormat(fixed2, cur1))) == fixed2(amount) + " " + currency
  {
  }

  /**
   * A code the currency formatter rejects draws exactly as a crypto code would:
   * the failure never surfaces, and the text ends in a space and the code as stored.
   */
  lemma FallbackMatchesCrypto(amount: real, currency: string, fmt: NumberFormat)
    requires fmt.asCurrency(amount, currency).None?
    ensures AmountString(FormatAmount(amount, currency, fmt)) == fmt.fixed2(amount) + " " + currency
    ensures var s := AmountString(FormatAmount(amount, currency, fmt));
            s[|s| - |currency| - 1..] == " " + currency
  {
  }

  // ---------------------------------------------------------------------------
  // Cells.

  /** What one body cell shows. */
  datatype Cell =
    | IdLink(id: string, details: Transfer)   // a link that opens the detail view of `details`
    | Beneficiary(name: string, beneficiaryId: string)
    | Amount(text: AmountText)
    | Currency(code: string)
    | TypeBadge(typeText: string, colour: Colour)
    | StatusBadge(statusText: string, colour: Colour)
    | MethodBadge(methodText: string)
    | Fee(fee: real)                          // drawn as "$" and the number as is
    | Blank                                   // a key the table does not know
    | Actions(details: Transfer)              // the view-details button of the fixed last column

  /** The column key a non-blank, non-action cell is drawn for. */
  function CellKey(c: Cell): string
  {
    match c
    case IdLink(_, _) => "id"
    case Beneficiary(_, _) => "beneficiaryName"
    case Amount(_) => "amount"
    case Currency(_) => "currency"
    case TypeBadge(_, _) => "type"
    case StatusBadge(_, _) => "status"
    case MethodBadge(_) => "method"
    case Fee(_) => "fee"
    case Blank => ""
    case Actions(_) => ""
  }

  /**
   * The cell drawn for a column key: each of the eight known keys gets the cell
   * for its own field, and any other key an empty cell.
   */
  function RenderCell(key: string, t: Transfer, fmt: NumberFormat): (c: Cell)
    ensures c == Blank <==> key !in DefaultKeys
    ensures c != Blank ==> CellKey(c) == key
    ensures !c.Actions?
    ensures c.IdLink? ==> c.id == t.id && c.details == t
    ensures c.Beneficiary? ==> c.name == t.beneficiaryName && c.beneficiaryId == t.beneficiaryId
    ensures c.Currency? ==> c.code == t.currency
    ensures c.MethodBadge? ==> c.methodText == t.transferMethod
    ensures c.Fee? ==> c.fee == t.fee
    ensures c.TypeBadge? ==> c.typeText == t.transferType && c.colour == TypeColour(t.transferType)
    ensures c.StatusBadge? ==> c.statusText == t.status && c.colour == StatusColour(t.status)
    ensures c.Amount? ==> c.text == FormatAmount(t.amount, t.currency, fmt)
  {
    if key == "id" then IdLink(t.id, t)
    else if key == "beneficiaryName" then Beneficiary(t.beneficiaryName, t.beneficiaryId)
    else if key == "amount" then Amount(FormatAmount(t.amount, t.currency, fmt))
    else if key == "currency" then Currency(t.currency)
    else if key == "type" then TypeBadge(t.transferType, TypeColour(t.transferType))
    else if key == "status" then StatusBadge(t.status, StatusColour(t.status))
    else if key == "method" then MethodBadge(t.transferMethod)
    else if key == "fee" then Fee(t.fee)
    else Blank
  }

  // ---------------------------------------------------------------------------
  // Rows.

  datatype HeaderCell = Heading(text: string) | ActionsHeading

  /** The header row: one heading per displayed column, then "Actions". */
  function HeaderRow(cols: seq<Column>): (r: seq<HeaderCell>)
    ensures |r| == |Visible(cols)| + 1
    ensures r[|r| - 1] == ActionsHeading
    ensures forall i :: 0 <= i < |r| - 1 ==> r[i].Heading?
  {
    Headings(DisplayColumns(cols)) + [ActionsHeading]
  }

  /** One heading per column, left to right. */
  function Headings(d: seq<Column>): (h: seq<HeaderCell>)
    ensures |h| == |d|
    ensures forall i :: 0 <= i < |d| ==> h[i] == Heading(d[i].title)
  {
    seq(|d|, i requires 0 <= i < |d| => Heading(d[i].title))
  }

  /** A body row: one cell per displayed column, then the view-details button. */
  function BodyRow(cols: seq<Column>, t: Transfer, fmt: NumberFormat): (r: seq<Cell>)
    ensures |r| == |Visible(cols)| + 1
    ensures r[|r| - 1] == Actions(t)
    ensures forall i :: 0 <= i < |r| - 1 ==> !r[i].Actions?
  {
    Cells(DisplayColumns(cols), t, fmt) + [Actions(t)]
  }

  /** One cell of the record per column, left to right. */
  function Cells(d: seq<Column>, t: Transfer, fmt: NumberFormat): (cells: seq<Cell>)
    ensures |cells| == |d|
    ensures forall i :: 0 <= i < |d| ==> cells[i] == RenderCell(d[i].key, t, fmt)
  {
    seq(|d|, i requires 0 <= i < |d| => RenderCell(d[i].key, t, fmt))
  }

  /** The whole table body: one row per transfer of the page, in the order given. */
  function BodyRows(cols: seq<Column>, transfers: seq<Transfer>, fmt: NumberFormat): (rows: seq<seq<Cell>>)
    ensures |rows| == |transfers|
    ensures forall j :: 0 <= j < |rows| ==> |rows[j]| == |Visible(cols)| + 1 && rows[j][|rows[j]| - 1] == Actions(transfers[j])
  {
    seq(|transfers|, j requires 0 <= j < |transfers| => BodyRow(cols, transfers[j], fmt))
  }

  /**
   * The header and every body row follow one column sequence: position i of the
   * header names the same displayed descriptor whose key picks cell i of each row.
   */
  lemma RowsFollowHeader(cols: seq<Column>, transfers: seq<Transfer>, fmt: NumberFormat)
    ensures var header, rows, d := HeaderRow(cols), BodyRows(cols, transfers, fmt), DisplayColumns(cols);
            |d| == |header| - 1 &&
            forall j, i :: 0 <= j < |rows| && 0 <= i < |d| ==>
              |rows[j]| == |header| &&
              header[i] == Heading(d[i].title) &&
              rows[j][i] == RenderCell(d[i].key, transfers[j], fmt)
  {
  }

  /**
   * When every descriptor's key is one of the eight known keys, no body cell is
   * empty and each cell shows the field its column names.
   */
  lemma KnownKeysNoBlank(cols: seq<Column>, t: Transfer, fmt: NumberFormat)
    requires forall i :: 0 <= i < |cols| ==> cols[i].key in DefaultKeys
    ensures var r, d := BodyRow(cols, t, fmt), DisplayColumns(cols);
            |d| == |r| - 1 &&
            forall i :: 0 <= i < |d| ==> r[i] != Blank && CellKey(r[i]) == d[i].key
  {
    var r, d := BodyRow(cols, t, fmt), DisplayColumns(cols);
    forall i | 0 <= i < |d| ensures r[i] != Blank && CellKey(r[i]) == d[i].key {
      assert d[i] in multiset(d);
      assert d[i] in cols;
      assert r[i] == RenderCell(d[i].key, t, fmt);
    }
  }

  /**
   * With the default configuration (the eight known keys, all visible, ranked in
   * declaration order, as DefaultColumns guarantees) every row shows the eight
   * fields in declaration order and no cell is empty.
   */
  lemma DefaultRowComplete(cols: seq<Column>, t: Transfer, fmt: NumberFormat)
    requires |cols| == |DefaultKeys|
    requires forall i :: 0 <= i < |cols| ==> cols[i].key == DefaultKeys[i] && cols[i].visible && cols[i].order == i
    ensures var r := BodyRow(cols, t, fmt);
            |r| == 9 &&
            forall i :: 0 <= i < 8 ==> r[i] != Blank && CellKey(r[i]) == DefaultKeys[i]
  {
    assert SortedByOrder(cols) by {
      forall i, j | 0 <= i < j < |cols| ensures cols[i].order <= cols[j].order {
        assert cols[i].order == i && cols[j].order == j;
      }
    }
    forall i | 0 <= i < |cols| ensures cols[i].key in DefaultKeys {
      assert cols[i].key == DefaultKeys[i];
    }
    VisibleOfAllVisible(cols);
    SortOfSorted(cols);
    assert DisplayColumns(cols) == cols;
    KnownKeysNoBlank(cols, t, fmt);
  }
}
