/** Rendering of search results into context text (`print_results`,
    `print_results_service` and the `"\n\n".join(...)` in the retrieval helpers). */
module Formatting {
  import opened Text

  /** The fields selected from the product index. */
  datatype Product = Product(segment: string, name: string, uniquePros: string, benefit: string,
                             condition: string, description: string, url: string)

  /** The fields selected from the service index. */
  datatype ServiceItem = ServiceItem(segment: string, name: string, detail: string, url: string)

  /** The seven lines rendered for one product, in field order; the URL line ends in a newline. */
  function ProductLines(p: Product): seq<string> {
    [ "Product Segment: " + p.segment,
      "Product Name: " + p.name,
      "Unique Point: " + p.uniquePros,
      "Product Benefit: " + p.benefit,
      "Product Condition: " + p.condition,
      "Product Description: " + p.description,
      "URL: " + p.url + "\n" ]
  }

  /** The four lines rendered for one service, in field order. */
  function ServiceLines(s: ServiceItem): seq<string> {
    [ "Service Segment: " + s.segment,
      "Service Name: " + s.name,
      "Service Detail: " + s.detail,
      "URL: " + s.url + "\n" ]
  }

  /** The lines of all products, result after result. */
  function FormatProducts(rs: seq<Product>): seq<string> {
    if rs == [] then [] else FormatProducts(rs[..|rs| - 1]) + ProductLines(rs[|rs| - 1])
  }

  /** The lines of all services, result after result. */
  function FormatServices(rs: seq<ServiceItem>): seq<string> {
    if rs == [] then [] else FormatServices(rs[..|rs| - 1]) + ServiceLines(rs[|rs| - 1])
  }

  /** `print_results`: one block of seven lines per product, in result order. */
  method PrintResults(results: seq<Product>) returns (answer: seq<string>)
    ensures answer == FormatProducts(results)
  {
    answer := [];
    for i := 0 to |results|
      invariant answer == FormatProducts(results[..i])
    {
      assert results[..i + 1][..i] == results[..i];
      answer := answer + ProductLines(results[i]);
    }
    assert results[..|results|] == results;
  }

  /** `print_results_service`: one block of four lines per service, in result order. */
  method PrintResultsService(results: seq<ServiceItem>) returns (answer: seq<string>)
    ensures answer == FormatServices(results)
  {
    answer := [];
    for i := 0 to |results|
      invariant answer == FormatServices(results[..i])
    {
      assert results[..i + 1][..i] == results[..i];
      answer := answer + ServiceLines(results[i]);
    }
    assert results[..|results|] == results;
  }

  /** Exactly seven lines per product: line `7 * i + k` is the `k`-th field line of
      the `i`-th product, and every seventh line is a URL line ending in a newline. */
  lemma {:induction false} FormatProductsLayout(rs: seq<Product>)
    ensures |FormatProducts(rs)| == 7 * |rs|
    ensures forall i, k :: 0 <= i < |rs| && 0 <= k < 7 ==> FormatProducts(rs)[7 * i + k] == ProductLines(rs[i])[k]
    ensures forall i :: 0 <= i < |rs| ==> FormatProducts(rs)[7 * i + 6] == "URL: " + rs[i].url + "\n"
  {
    if rs != [] {
      var front := rs[..|rs| - 1];
      FormatProductsLayout(front);
      forall i, k | 0 <= i < |rs| && 0 <= k < 7
        ensures FormatProducts(rs)[7 * i + k] == ProductLines(rs[i])[k]
      {
        if i < |rs| - 1 {
          assert rs[i] == front[i];
        }
      }
    }
  }

  /** Exactly four lines per service: line `4 * i + k` is the `k`-th field line of
      the `i`-th service. */
  lemma {:induction false} FormatServicesLayout(rs: seq<ServiceItem>)
    ensures |FormatServices(rs)| == 4 * |rs|
    ensures forall i, k :: 0 <= i < |rs| && 0 <= k < 4 ==> FormatServices(rs)[4 * i + k] == ServiceLines(rs[i])[k]
  {
    if rs != [] {
      var front := rs[..|rs| - 1];
      FormatServicesLayout(front);
      forall i, k | 0 <= i < |rs| && 0 <= k < 4
        ensures FormatServices(rs)[4 * i + k] == ServiceLines(rs[i])[k]
      {
        if i < |rs| - 1 {
          assert rs[i] == front[i];
        }
      }
    }
  }

  /** The context text of `retrieve_context`: the rendered lines joined by blank lines. */
  function ProductContext(rs: seq<Product>): string {
    Join("\n\n", FormatProducts(rs))
  }

  /** The context text of `retrieve_insurance_service_context`. */
  function ServiceContext(rs: seq<ServiceItem>): string {
    Join("\n\n", FormatServices(rs))
  }

  /** The retrieved context is empty exactly when the search returned no results. */
  lemma ContextEmptyIff(ps: seq<Product>, ss: seq<ServiceItem>)
    ensures ProductContext(ps) == "" <==> ps == []
    ensures ServiceContext(ss) == "" <==> ss == []
  {
    FormatProductsLayout(ps);
    FormatServicesLayout(ss);
    if ps != [] {
      assert FormatProducts(ps)[7 * 0 + 0] == ProductLines(ps[0])[0];
    }
    if ss != [] {
      assert FormatServices(ss)[4 * 0 + 0] == ServiceLines(ss[0])[0];
    }
    JoinEmptyIff("\n\n", FormatProducts(ps));
    JoinEmptyIff("\n\n", FormatServices(ss));
  }
}
