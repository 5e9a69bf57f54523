/** The production bundle's chunk assignment (manualChunks in vite.config.ts):
    a module id is tested against a fixed list of substrings in order, and
    the first test that succeeds names the chunk. */
module Chunks {
  import opened Util
  import opened Strings

  function ManualChunks(id: string): (r: Option<string>)
    ensures r.Some? ==> r.value in {"pdf-viewer", "web-llm", "transformers", "react-vendor", "router", "vendor"}
  {
    if Contains(id, "@react-pdf-viewer") || Contains(id, "pdfjs-dist") then Some("pdf-viewer")
    else if Contains(id, "@mlc-ai/web-llm") then Some("web-llm")
    else if Contains(id, "@xenova/transformers") || Contains(id, "onnxruntime") then Some("transformers")
    else if Contains(id, "react") || Contains(id, "react-dom") then Some("react-vendor")
    else if Contains(id, "react-router") then Some("router")
    else if Contains(id, "node_modules") then Some("vendor")
    else None
  }

  predicate IsPdf(id: string)
  {
    Contains(id, "@react-pdf-viewer") || Contains(id, "pdfjs-dist")
  }

  predicate IsLlm(id: string)
  {
    Contains(id, "@mlc-ai/web-llm")
  }

  predicate IsTransformers(id: string)
  {
    Contains(id, "@xenova/transformers") || Contains(id, "onnxruntime")
  }

  /** PDF modules go to their own chunk whatever else the id contains. */
  lemma {:induction false} PdfFirst(id: string)
    requires IsPdf(id)
    ensures ManualChunks(id) == Some("pdf-viewer")
  {
  }

  /** The first matching test wins: web-llm, then transformers, each only when
      no earlier test matched. */
  lemma {:induction false} FirstMatchWins(id: string)
    ensures ManualChunks(id) == Some("web-llm") <==> !IsPdf(id) && IsLlm(id)
    ensures ManualChunks(id) == Some("transformers") <==> !IsPdf(id) && !IsLlm(id) && IsTransformers(id)
  {
  }

  /** An id containing "react" that no earlier test claimed goes to react-vendor. */
  lemma {:induction false} ReactVendor(id: string)
    requires !IsPdf(id) && !IsLlm(id) && !IsTransformers(id) && Contains(id, "react")
    ensures ManualChunks(id) == Some("react-vendor")
  {
  }

  /** Every id containing "react-router" also contains "react". */
  lemma {:induction false} RouterIdsContainReact(id: string)
    requires Contains(id, "react-router")
    ensures Contains(id, "react")
  {
    assert IsPrefix("react", "react-router");
    ContainsPrefixOf(id, "react-router", "react");
  }

  /** So the remaining react-router ids land in react-vendor and the router chunk is never produced. */
  lemma {:induction false} RouterChunkUnreachable(id: string)
    ensures ManualChunks(id) != Some("router")
    ensures Contains(id, "react-router") && !IsPdf(id) && !IsLlm(id) && !IsTransformers(id) ==>
      ManualChunks(id) == Some("react-vendor")
  {
    if Contains(id, "react-router") {
      RouterIdsContainReact(id);
    }
  }

  /** Other node_modules ids go to vendor; anything else gets no chunk. */
  lemma {:induction false} VendorOrNothing(id: string)
    requires !IsPdf(id) && !IsLlm(id) && !IsTransformers(id) && !Contains(id, "react")
    ensures Contains(id, "node_modules") ==> ManualChunks(id) == Some("vendor")
    ensures !Contains(id, "node_modules") <==> ManualChunks(id) == None
  {
    if Contains(id, "react-router") {
      RouterIdsContainReact(id);
    }
    if Contains(id, "react-dom") {
      assert IsPrefix("react", "react-dom");
      ContainsPrefixOf(id, "react-dom", "react");
    }
  }

  /** The assignment with the router test moved ahead of the broader react test,
      so that react-router gets the chunk its branch names. */
  function IntendedManualChunks(id: string): (r: Option<string>)
    ensures r.Some? ==> r.value in {"pdf-viewer", "web-llm", "transformers", "react-vendor", "router", "vendor"}
  {
    if IsPdf(id) then Some("pdf-viewer")
    else if IsLlm(id) then Some("web-llm")
    else if IsTransformers(id) then Some("transformers")
    else if Contains(id, "react-router") then Some("router")
    else if Contains(id, "react") || Contains(id, "react-dom") then Some("react-vendor")
    else if Contains(id, "node_modules") then Some("vendor")
    else None
  }

  /** With the tests reordered, react-router ids reach the router chunk, and
      every id without "react-router" is assigned exactly as before. */
  lemma {:induction false} IntendedRouterChunk(id: string)
    ensures Contains(id, "react-router") && !IsPdf(id) && !IsLlm(id) && !IsTransformers(id) ==>
      IntendedManualChunks(id) == Some("router")
    ensures !Contains(id, "react-router") ==> IntendedManualChunks(id) == ManualChunks(id)
  {
  }
}
