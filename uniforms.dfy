/**
 * The uniform upload dispatch of the shader manager: a type tag such as
 * "2f" or "matrix4fv" selects one upload entry point of the context and the
 * arguments it receives.
 */
module Uniforms {
  import opened Gl

  /** Every type tag the dispatch accepts. */
  const UniformTags: set<string> := {
    "1f", "2f", "3f", "4f", "1i", "2i", "3i", "4i",
    "1fv", "2fv", "3fv", "4fv", "matrix2fv", "matrix3fv", "matrix4fv"
  }

  /** The type tag that selects each entry point. */
  function TagName(fn: UploadFn): string {
    match fn
    case Uniform1f => "1f"
    case Uniform2f => "2f"
    case Uniform3f => "3f"
    case Uniform4f => "4f"
    case Uniform1i => "1i"
    case Uniform2i => "2i"
    case Uniform3i => "3i"
    case Uniform4i => "4i"
    case Uniform1fv => "1fv"
    case Uniform2fv => "2fv"
    case Uniform3fv => "3fv"
    case Uniform4fv => "4fv"
    case UniformMatrix2fv => "matrix2fv"
    case UniformMatrix3fv => "matrix3fv"
    case UniformMatrix4fv => "matrix4fv"
  }

  /** The `switch (type)` of `setUniform`: `None` is its default branch. */
  function Dispatch(tag: string): (fn: Option<UploadFn>)
    ensures fn.Some? <==> tag in UniformTags
    ensures fn.Some? ==> TagName(fn.value) == tag
  {
    if tag == "1f" then Some(Uniform1f)
    else if tag == "2f" then Some(Uniform2f)
    else if tag == "3f" then Some(Uniform3f)
    else if tag == "4f" then Some(Uniform4f)
    else if tag == "1i" then Some(Uniform1i)
    else if tag == "2i" then Some(Uniform2i)
    else if tag == "3i" then Some(Uniform3i)
    else if tag == "4i" then Some(Uniform4i)
    else if tag == "1fv" then Some(Uniform1fv)
    else if tag == "2fv" then Some(Uniform2fv)
    else if tag == "3fv" then Some(Uniform3fv)
    else if tag == "4fv" then Some(Uniform4fv)
    else if tag == "matrix2fv" then Some(UniformMatrix2fv)
    else if tag == "matrix3fv" then Some(UniformMatrix3fv)
    else if tag == "matrix4fv" then Some(UniformMatrix4fv)
    else None
  }

  /** Dispatch and TagName are inverse: every entry point is reached by exactly its own tag. */
  lemma DispatchTagName(fn: UploadFn)
    ensures TagName(fn) in UniformTags
    ensures Dispatch(TagName(fn)) == Some(fn)
  {
  }

  /** How many components the entry point reads one by one out of the value (0: it takes the value whole). */
  function Components(fn: UploadFn): nat {
    match fn
    case Uniform2f | Uniform2i => 2
    case Uniform3f | Uniform3i => 3
    case Uniform4f | Uniform4i => 4
    case _ => 0
  }

  predicate IsMatrix(fn: UploadFn) {
    fn == UniformMatrix2fv || fn == UniformMatrix3fv || fn == UniformMatrix4fv
  }

  /**
   * The arguments after the location: the N-component vector calls read
   * exactly `value[0]` to `value[N-1]`; the matrix calls pass `false`
   * (no transpose) and the value; every other call passes the value whole.
   */
  function UploadArgs(fn: UploadFn, value: JsValue): (args: seq<JsValue>)
    ensures Components(fn) > 0 ==> |args| == Components(fn) && forall i :: 0 <= i < |args| ==> args[i] == Index(value, i)
    ensures IsMatrix(fn) ==> args == [Bool(false), value]
    ensures Components(fn) == 0 && !IsMatrix(fn) ==> args == [value]
  {
    match fn
    case Uniform2f | Uniform2i => [Index(value, 0), Index(value, 1)]
    case Uniform3f | Uniform3i => [Index(value, 0), Index(value, 1), Index(value, 2)]
    case Uniform4f | Uniform4i => [Index(value, 0), Index(value, 1), Index(value, 2), Index(value, 3)]
    case UniformMatrix2fv | UniformMatrix3fv | UniformMatrix4fv => [Bool(false), value]
    case _ => [value]
  }

  /** Reading `value[0]` of an `undefined` value throws a `TypeError` before the entry point is called. */
  predicate Throws(fn: UploadFn, value: JsValue) {
    Components(fn) > 0 && value.Undefined?
  }

  /** `setUniform` throws once the location is known: a handled tag whose entry point indexes an `undefined` value. */
  predicate UploadThrows(tag: string, location: Option<Location>, value: JsValue) {
    location.Some? && Dispatch(tag).Some? && Throws(Dispatch(tag).value, value)
  }

  /** Exactly the six vector tags throw, and only on an `undefined` value at a non-null location. */
  lemma UploadThrowsExactly(tag: string, location: Option<Location>, value: JsValue)
    ensures UploadThrows(tag, location, value) <==>
              location.Some? && tag in {"2f", "3f", "4f", "2i", "3i", "4i"} && value.Undefined?
  {
  }

  /**
   * What `setUniform` uploads once the location is known: nothing for a null
   * location, an unknown tag or a throwing read of the value, otherwise
   * exactly one call, through the entry point the tag names, at that location.
   */
  function UploadCalls(tag: string, location: Option<Location>, value: JsValue): (calls: seq<Event>)
    ensures |calls| <= 1
    ensures |calls| == 1 <==> location.Some? && tag in UniformTags && !UploadThrows(tag, location, value)
    ensures |calls| == 1 ==> calls[0].UniformUploaded? && TagName(calls[0].fn) == tag &&
                             calls[0].location == location.value && calls[0].args == UploadArgs(calls[0].fn, value)
    ensures |calls| == 1 && Components(calls[0].fn) > 0 ==> !value.Undefined?
  {
    if location.None? then []
    else
      match Dispatch(tag)
      case None => []
      case Some(fn) => if Throws(fn, value) then [] else [UniformUploaded(fn, location.value, UploadArgs(fn, value))]
  }
}
