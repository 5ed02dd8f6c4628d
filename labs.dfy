/**
 * The `NuageLab` record: a snapshot of one lab as the listing endpoint
 * describes it, how it is decoded from a payload, how it is reported, and
 * which lab `lab_by_name` picks out of a listing.
 */
module Labs {
  import opened Wrappers
  import opened Json

  /** The status string that marks a lab as usable. */
  const Started: string := "started"

  /** The four result keys a lab fills in. */
  const LabKeys: set<string> := {"lab_id", "lab_name", "lab_address", "lab_password"}

  /** A lab snapshot; every field is whatever the payload held, `Null` if absent. */
  datatype Lab = Lab(name: Value, id: Value, status: Value, address: Value, password: Value)
  {
    /** `is_runnung`: only the literal status "started" counts as running. */
    predicate IsRunning()
    {
      status == Str(Started)
    }

    /** `as_json`: the lab's fields under the keys of the module result. */
    function AsJson(): (j: Object)
      ensures j.Keys == LabKeys
      ensures "changed" !in j
      ensures j["lab_id"] == id && j["lab_name"] == name
      ensures j["lab_address"] == address && j["lab_password"] == password
    {
      map["lab_id" := id, "lab_name" := name, "lab_address" := address, "lab_password" := password]
    }
  }

  /** `from_json`: reads `name`, `_id`, `status`, `externalIP` and `password`. */
  function FromJson(data: Object): (lab: Lab)
  {
    Lab(Get(data, "name"), Get(data, "_id"), Get(data, "status"), Get(data, "externalIP"), Get(data, "password"))
  }

  /** The running predicate holds exactly for payloads whose status is "started". */
  lemma FromJsonRunning(data: Object)
    ensures FromJson(data).IsRunning() <==> ("status" in data && data["status"] == Str(Started))
  {
  }

  /** Reporting a decoded payload copies four payload keys onto four result keys. */
  lemma AsJsonFromJson(data: Object)
    ensures FromJson(data).AsJson() ==
      map["lab_id" := Get(data, "_id"), "lab_name" := Get(data, "name"),
          "lab_address" := Get(data, "externalIP"), "lab_password" := Get(data, "password")]
  {
  }

  /** The choice `lab_by_name` makes from a listing: its first entry, decoded, or none. */
  function FirstLab(listing: seq<Object>): (lab: Option<Lab>)
    ensures lab.None? <==> listing == []
    ensures lab.Some? ==> lab.value == FromJson(listing[0])
  {
    if listing == [] then None else Some(FromJson(listing[0]))
  }

  /** First match: what follows the first entry of a listing never changes the choice. */
  lemma FirstLabIgnoresRest(listing: seq<Object>, more: seq<Object>)
    ensures listing != [] ==> FirstLab(listing + more) == FirstLab(listing)
    ensures listing == [] ==> FirstLab(listing + more) == FirstLab(more)
  {
    if listing != [] {
      assert (listing + more)[0] == listing[0];
    }
  }
}
