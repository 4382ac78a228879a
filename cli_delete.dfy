/** `tickets_cli appointment delete`: the ids to remove, from the command line or from
    standard input, sorted and deduplicated. The command builds the payload and reports
    success; it sends no request. */
module DeleteCommand {
  import opened Wrappers
  import opened Ids
  import opened Console
  import opened Ordering

  const PARSE_UUID_FAILURE := "Failed to parse UUID"

  /** The derived order of `Uuid`: its bytes big-endian, that is, its value. */
  function UuidLess(a: Uuid, b: Uuid): bool { a < b }

  lemma UuidOrder()
    ensures StrictTotalOrder(UuidLess)
  {
  }

  /** `read_uuids`: the lines before the first blank one, each a UUID as typed
      (`Uuid::parse_str` is a parameter). */
  method ReadUuids(lines: seq<string>, parseUuid: string -> Option<Uuid>)
    returns (r: Result<seq<Uuid>, IoError>)
    ensures r.Err? <==> exists i :: 0 <= i < |BeforeBlank(lines)| && parseUuid(BeforeBlank(lines)[i]).None?
    ensures r.Err? ==> r.error == InvalidData(PARSE_UUID_FAILURE)
    ensures r.Ok? ==> |r.value| == |BeforeBlank(lines)|
                      && forall i :: 0 <= i < |r.value| ==> parseUuid(BeforeBlank(lines)[i]) == Some(r.value[i])
  {
    r := ReadList(lines, parseUuid, PARSE_UUID_FAILURE);
  }

  /** `delete_appointment_handler`: `Ok(true)` with the sorted, deduplicated ids (the
      `RemoveAppointment` payload it prints), or the read error. */
  method DeleteAppointment(uuids: seq<Uuid>, lines: seq<string>, parseUuid: string -> Option<Uuid>)
    returns (r: Result<bool, IoError>, payload: seq<Uuid>)
    ensures uuids != [] ==> r == Ok(true)
    ensures uuids == [] ==>
              (r.Err? <==> exists i :: 0 <= i < |BeforeBlank(lines)| && parseUuid(BeforeBlank(lines)[i]).None?)
    ensures r.Err? ==> r.error == InvalidData(PARSE_UUID_FAILURE) && payload == []
    ensures r.Ok? ==>
              && r.value
              && StrictlyIncreasing(payload, UuidLess)
              && (uuids != [] ==> forall u :: u in payload <==> u in uuids)
              && (uuids == [] ==> forall u :: u in payload <==>
                                    exists i :: 0 <= i < |BeforeBlank(lines)| && parseUuid(BeforeBlank(lines)[i]) == Some(u))
  {
    var ids := uuids;
    if uuids == [] {
      var read := ReadUuids(lines, parseUuid);
      if read.Err? {
        return Err(read.error), [];
      }
      ids := read.value;
      forall u ensures u in ids <==>
                 exists i :: 0 <= i < |BeforeBlank(lines)| && parseUuid(BeforeBlank(lines)[i]) == Some(u)
      {
        if u in ids {
          var i :| 0 <= i < |ids| && ids[i] == u;
          assert parseUuid(BeforeBlank(lines)[i]) == Some(u);
        }
      }
    }
    UuidOrder();
    payload := SortDedup(ids, UuidLess);
    r := Ok(true);
  }
}
