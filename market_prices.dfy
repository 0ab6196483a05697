/**
 * The market price card: the trend icons, and the loading/error/prices state
 * around each refresh. Every refresh calls the price service; nothing is cached.
 */
module MarketPrices {
  import opened Wrappers

  datatype Trend = Up | Down | Stable

  datatype Icon = ArrowUp | ArrowDown | Minus

  datatype MarketPrice = MarketPrice(cropName: string, price: real, trend: Trend)

  const FetchError := "Could not fetch market data. Please try again."

  /** The icon drawn for a trend. */
  function TrendIcon(trend: Trend): (icon: Icon)
    ensures icon == ArrowUp <==> trend == Up
    ensures icon == ArrowDown <==> trend == Down
    ensures icon == Minus <==> trend == Stable
  {
    match trend
    case Up => ArrowUp
    case Down => ArrowDown
    case Stable => Minus
  }

  /** The trend an icon stands for. */
  function IconTrend(icon: Icon): Trend
  {
    match icon
    case ArrowUp => Up
    case ArrowDown => Down
    case Minus => Stable
  }

  /** Each trend has its own icon and each icon its own trend. */
  lemma TrendIconBijective(t: Trend, i: Icon)
    ensures IconTrend(TrendIcon(t)) == t
    ensures TrendIcon(IconTrend(i)) == i
    ensures TrendIcon(Up) == ArrowUp && TrendIcon(Down) == ArrowDown && TrendIcon(Stable) == Minus
  {
  }

  /** The spinner shows only while loading with no prices yet. */
  function SpinnerVisible(loading: bool, prices: Option<seq<MarketPrice>>): (visible: bool)
    ensures visible ==> RefreshDisabled(loading)
    ensures prices.Some? ==> !visible
    ensures loading && prices.None? ==> visible
  {
    loading && prices.None?
  }

  /** The refresh button is disabled while loading. */
  function RefreshDisabled(loading: bool): (disabled: bool)
    ensures disabled <==> loading
  {
    loading
  }

  class MarketPriceCard {
    var prices: Option<seq<MarketPrice>>
    var loading: bool
    var error: Option<string>

    constructor ()
      ensures prices == None && !loading && error == None
    {
      prices, loading, error := None, false, None;
    }

    /** Before the call: loading starts and the error is cleared; the prices shown stay. */
    method BeginFetch()
      modifies this
      ensures loading && error == None && prices == old(prices)
      ensures RefreshDisabled(loading)
      ensures SpinnerVisible(loading, prices) <==> prices == None
    {
      loading := true;
      error := None;
    }

    /** After the call: new prices on success; on failure the old prices stay and the fixed message is set. */
    method CompleteFetch(response: Result<seq<MarketPrice>, string>)
      modifies this
      ensures !loading
      ensures response.Success? ==> prices == Some(response.value) && error == old(error)
      ensures response.Failure? ==> prices == old(prices) && error == Some(FetchError)
    {
      if response.Success? {
        prices := Some(response.value);
      } else {
        error := Some(FetchError);
      }
      loading := false;
    }

    /** The whole refresh, also run once on mount. */
    method HandleFetchPrices(response: Result<seq<MarketPrice>, string>)
      modifies this
      ensures !loading && !RefreshDisabled(loading) && !SpinnerVisible(loading, prices)
      ensures response.Success? ==> prices == Some(response.value) && error == None
      ensures response.Failure? ==> prices == old(prices) && error == Some(FetchError)
    {
      BeginFetch();
      CompleteFetch(response);
    }
  }
}
