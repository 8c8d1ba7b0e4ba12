/** The profit and loss statement: money out, the net settlement and its caption. */
module ProfitLoss {
  import opened Common
  import Server

  /** The figures before the first answer, and after a failed request. */
  const Initial := Server.Totals(0, 0, 0)

  /** The bottom line: the net amount, its caption and the style of the amount cell. */
  datatype Settlement = Settlement(totalOut: int, netProfit: int, caption: string, style: string)

  const ProfitLabel := "\U{1F680} PROFIT"
  const LossLabel := "\U{26A0}\U{FE0F} LOSS"

  function Settle(t: Server.Totals): (r: Settlement)
    ensures r.totalOut == t.purchases + t.expenses
    ensures r.netProfit + r.totalOut == t.sales
    ensures r.caption == ProfitLabel <==> r.netProfit >= 0
    ensures r.caption == LossLabel <==> r.netProfit < 0
    ensures r.style == "pos" <==> r.netProfit >= 0
    ensures r.style == "neg" <==> r.netProfit < 0
  {
    var totalOut := t.purchases + t.expenses;
    var net := t.sales - totalOut;
    Settlement(totalOut, net, if net >= 0 then ProfitLabel else LossLabel, if net >= 0 then "pos" else "neg")
  }

  /** A failed request leaves the zero figures, which read as a profit. */
  lemma FailedFetchReadsAsProfit()
    ensures Settle(Initial).caption == ProfitLabel && Settle(Initial).netProfit == 0
  {
  }

  /** Each recorded sale raises the net settlement by its total amount. */
  lemma SaleRaisesNet(sales: seq<Server.Sale>, purchases: seq<Server.Purchase>, expenses: seq<Server.Expense>, s: Server.Sale)
    ensures Settle(Server.ProfitLossTotals(sales + [s], purchases, expenses)).netProfit
      == Settle(Server.ProfitLossTotals(sales, purchases, expenses)).netProfit + NumberOr0(s.totalAmount)
  {
    Server.InsertSaleRaisesTotal(sales, purchases, expenses, s);
  }

  class ProfitLossScreen {
    var data: Server.Totals

    constructor ()
      ensures data == Initial
    {
      data := Initial;
    }

    /** `fetchFinancials`: a failed request keeps the figures shown. */
    method Fetch(response: Option<Server.Totals>)
      modifies this`data
      ensures data == if response.Some? then response.value else old(data)
    {
      if response.Some? {
        data := response.value;
      }
    }
  }
}
