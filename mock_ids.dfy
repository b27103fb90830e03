/** Id assignment shared by the in-memory mock services
    (src/services/productoService.ts, src/services/pedidoService.ts):
    `Math.max(...table.map(p => p.id)) + 1`. */
module MockIds {

  /** The JavaScript numbers this computation can produce: `Math.max()` of
      no arguments is -Infinity, and -Infinity + 1 is -Infinity. */
  datatype JsNumber = NegInfinity | Finite(n: int)

  function MaxId(ids: seq<int>): (m: int)
    requires |ids| > 0
    ensures m in ids
    ensures forall i :: 0 <= i < |ids| ==> ids[i] <= m
  {
    if |ids| == 1 then ids[0]
    else
      var rest := MaxId(ids[1..]);
      if ids[0] >= rest then ids[0] else rest
  }

  /** The new id as the services compute it. */
  function NextIdAsWritten(ids: seq<int>): JsNumber
  {
    if ids == [] then NegInfinity else Finite(MaxId(ids) + 1)
  }

  /** On an emptied table the computed id is -Infinity, not an integer. */
  lemma NextIdAsWrittenEmpty(ids: seq<int>)
    ensures NextIdAsWritten(ids).NegInfinity? <==> ids == []
  {
  }

  /** The id the services evidently intend: one more than the largest id,
      and 1 for an empty table. */
  function NextId(ids: seq<int>): (r: int)
    ensures forall i :: 0 <= i < |ids| ==> ids[i] < r
    ensures ids != [] ==> NextIdAsWritten(ids) == Finite(r)
    ensures r >= 1 || exists i :: 0 <= i < |ids| && ids[i] == r - 1
    ensures ids == [] ==> r == 1
  {
    if ids == [] then 1 else MaxId(ids) + 1
  }
}
