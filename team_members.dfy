/**
 * The onboarding team form: the team records fetched for the applicant, edited in
 * place, extended with blank records and removed after confirmation. Every change
 * except adding a record is passed on to the parent form through `onChange`.
 */
module TeamMembers {
  import opened JsText
  import opened Collections

  /** The blank record used when nothing was fetched: nine empty fields. */
  const FetchedBlank: Record :=
    map["employerName" := "", "contactName" := "", "phone" := "", "email" := "", "address" := "",
        "jobTitle" := "", "startDate" := "", "endDate" := "", "responsibilities" := ""]

  /** The record "add" appends: five empty fields. */
  const AddedBlank: Record :=
    map["employerName" := "", "contactName" := "", "phone" := "", "email" := "", "address" := ""]

  /** The records the form starts from: the fetched list, or one blank record when it is empty. */
  function InitialRecords(fetched: seq<Record>): (r: seq<Record>)
    ensures fetched != [] ==> r == fetched
    ensures fetched == [] ==> r == [FetchedBlank]
    ensures |r| >= 1
  {
    if |fetched| > 0 then fetched else [FetchedBlank]
  }

  /** Whether a record has a truthy `id`, that is, whether it was saved on the server. */
  predicate Saved(r: Record) {
    Truthy(IdOf(r))
  }

  class Form {
    var records: seq<Record>
    var hasFetchedData: bool
    var isLoading: bool

    constructor ()
      ensures records == [] && !hasFetchedData && isLoading
    {
      records := [];
      hasFetchedData := false;
      isLoading := true;
    }

    /**
     * The fetch of the applicant's team. It runs once: after a successful fetch
     * nothing is requested again. `fetched` is the list, or `None` when the request
     * failed. The records set are also what `onChange` receives.
     */
    method FetchTeamData(fetched: Option<seq<Record>>) returns (requested: bool, notified: seq<seq<Record>>)
      modifies this
      ensures requested <==> !old(hasFetchedData)
      ensures requested && fetched.Some? ==> records == InitialRecords(fetched.value) && notified == [records] && hasFetchedData
      ensures !(requested && fetched.Some?) ==> records == old(records) && notified == [] && hasFetchedData == old(hasFetchedData)
      ensures requested ==> !isLoading
      ensures !requested ==> isLoading == old(isLoading)
    {
      notified := [];
      if hasFetchedData {
        return false, notified;
      }
      requested := true;
      if fetched.Some? {
        records := InitialRecords(fetched.value);
        notified := [records];
        hasFetchedData := true;
      }
      isLoading := false;
    }

    /** Editing a field: only that field of the record at `index` changes; the new list goes to `onChange`. */
    method HandleTeamChange(index: int, field: string, value: string) returns (notified: seq<seq<Record>>)
      modifies this
      ensures records == UpdateAt(old(records), index, SetField(field, value))
      ensures 0 <= index < |records| ==> records[index] == old(records)[index][field := value]
      ensures notified == [records]
      ensures hasFetchedData == old(hasFetchedData) && isLoading == old(isLoading)
    {
      records := UpdateAt(records, index, SetField(field, value));
      notified := [records];
    }

    /** "Add": one blank record at the end, not passed to `onChange`. */
    method AddTeamRecord()
      modifies this
      ensures records == old(records) + [AddedBlank]
      ensures hasFetchedData == old(hasFetchedData) && isLoading == old(isLoading)
    {
      records := records + [AddedBlank];
    }

    /**
     * "Remove" for the record at `index`. Without confirmation nothing happens.
     * With it, a saved record is deleted on the server (`deleteOk` says whether that
     * went through), and the record is removed from the form in every case; the
     * parent hears of the new list once more when the server delete succeeded. The
     * control is only rendered while there are two records or more, so at least one
     * record always remains.
     */
    method RemoveTeamRecord(index: int, confirmed: bool, deleteOk: bool) returns (deleteRequested: bool, notified: seq<seq<Record>>)
      requires 0 <= index < |records|
      requires |records| > 1
      modifies this
      ensures |records| >= 1
      ensures deleteRequested <==> confirmed && Saved(old(records)[index])
      ensures !confirmed ==> records == old(records) && notified == []
      ensures confirmed ==> records == old(records)[..index] + old(records)[index + 1..]
      ensures confirmed && deleteRequested && deleteOk ==> notified == [records, records]
      ensures confirmed && !(deleteRequested && deleteOk) ==> notified == [records]
      ensures hasFetchedData == old(hasFetchedData) && isLoading == old(isLoading)
    {
      notified := [];
      deleteRequested := false;
      if !confirmed {
        return;
      }
      var removed := DropIndex(records, index);
      if Saved(records[index]) {
        deleteRequested := true;
        if deleteOk {
          notified := notified + [removed];
        }
      }
      records := removed;
      notified := notified + [records];
    }
  }
}
