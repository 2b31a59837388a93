/**
 * The SWAPI client, seen only through what it answers. The HTTP transport is not
 * modelled: each resource kind is an endpoint that either answers with parsed JSON
 * or fails with a client error (None).
 */
module Gateway {
  import opened Wrappers
  import opened Json

  /** One page of a listing: the total the API reports (never negative), the links to the next and
      previous pages (JSON null is None), and the entries of this page. */
  datatype Page = Page(count: nat, next: Option<string>, previous: Option<string>, results: seq<JsonObject>)

  /** What the client returns for one resource kind. Page n (counting from 1) is
      pages[n - 1]; None there, and every page number outside 1..|pages|, is a
      request that raises a client error. items maps an id to its object; an id
      that is not a key raises a client error. */
  datatype Endpoint = Endpoint(pages: seq<Option<Page>>, items: map<int, JsonObject>)

  /** The client: one endpoint per resource kind. */
  datatype Client = Client(people: Endpoint, films: Endpoint)

  /** Request page n of a listing. */
  function FetchPage(e: Endpoint, n: nat): (r: Option<Page>)
    ensures 1 <= n <= |e.pages| ==> r == e.pages[n - 1]
    ensures !(1 <= n <= |e.pages|) ==> r == None
  {
    if 1 <= n <= |e.pages| then e.pages[n - 1] else None
  }
}
