/** The remote-site collaborator as the pipeline sees it: a session that is started,
    asked for the stock rows of one code tuple, and stopped. What the site answers is
    a parameter; the session only records how often it was started and stopped. */
module Scraping {
  import opened Collections
  import opened Models

  /** The outcome of one stock fetch: the rows, or the text of the exception raised. */
  datatype FetchResult = Rows(rows: seq<StockResult>) | Raised(message: string)

  /** What the site answers for (state code, district code, blood-group code, component code). */
  type FetchSource = (string, string, string, Option<string>) -> FetchResult

  class Scraper {
    const source: FetchSource
    ghost var starts: nat
    ghost var stops: nat
    ghost var open: bool

    constructor (source: FetchSource)
      ensures this.source == source
      ensures starts == 0 && stops == 0 && !open
    {
      this.source := source;
      starts, stops, open := 0, 0, false;
    }

    /** Launch the browser session. */
    method Start()
      modifies this
      ensures open
      ensures starts == old(starts) + 1 && stops == old(stops)
    {
      starts, open := starts + 1, true;
    }

    /** Fetch the stock rows of one code tuple from a started session. */
    method FetchStock(stateCode: string, districtCode: string, groupCode: string, componentCode: Option<string>)
      returns (r: FetchResult)
      requires open
      ensures r == source(stateCode, districtCode, groupCode, componentCode)
    {
      r := source(stateCode, districtCode, groupCode, componentCode);
    }

    /** Close the browser session. */
    method Stop()
      modifies this
      ensures !open
      ensures stops == old(stops) + 1 && starts == old(starts)
    {
      stops, open := stops + 1, false;
    }
  }
}
