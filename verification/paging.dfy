/** Answers that arrive in pages (controller/internal/state/dynamodb/repository.go:529-577, 989-1010). */
module Paging {

  function Flatten<T>(pages: seq<seq<T>>): seq<T> {
    if pages == [] then [] else Flatten(pages[..|pages| - 1]) + pages[|pages| - 1]
  }

  /** The paging loop: however the answer is cut into pages, empty ones included, it is put together again. */
  method ReadPages<T>(pages: seq<seq<T>>) returns (items: seq<T>)
    ensures items == Flatten(pages)
  {
    items := [];
    for i := 0 to |pages|
      invariant items == Flatten(pages[..i])
    {
      assert pages[..i + 1][..i] == pages[..i];
      items := items + pages[i];
    }
    assert pages[..|pages|] == pages;
  }
}
