/** What both scripts send to the entity-extraction service. The two HTTP
    calls themselves are not modelled: each script's process_pdf takes the
    decoded responses as inputs. */
module Extraction {
  import opened Json

  /** The JSON body of the stage-2 request, built from the stage-1 response:
      a single "text" member carrying the stage-1 "extracted_text" value
      unchanged, or the empty string when stage 1 sent none. */
  function Stage2Payload(stage1: Object): (payload: Object)
    ensures payload.Keys == {"text"}
    ensures "extracted_text" in stage1 ==> payload["text"] == stage1["extracted_text"]
    ensures "extracted_text" !in stage1 ==> payload["text"] == JStr("")
  {
    map["text" := Get(stage1, "extracted_text", JStr(""))]
  }
}
