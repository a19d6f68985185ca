/**
 * The in-memory list edits the pages apply after a request succeeds: remove the
 * records with an id, replace or merge the records that match, drop the row at a
 * position, and change one field of one row. Records coming from the server are
 * maps from field name to text.
 */
module Collections {
  import opened JsText
  import opened Table

  /** A record as a JSON object with text values. */
  type Record = map<string, string>

  /** `record.id`: `None` when the record has no id. */
  function IdOf(r: Record): Option<string> {
    if "id" in r then Some(r["id"]) else None
  }

  function HasOtherId(id: Option<string>): Record -> bool {
    (r: Record) => IdOf(r) != id
  }

  /** `xs.filter(r => r.id !== id)`: every record with that id goes, the rest stay in order. */
  function RemoveById(xs: seq<Record>, id: Option<string>): (r: seq<Record>)
    ensures forall x :: x in r <==> x in xs && IdOf(x) != id
    ensures IsSubsequence(r, xs)
  {
    FilterMeaning(xs, HasOtherId(id));
    Filter(xs, HasOtherId(id))
  }

  /** Removing an id no record has changes nothing. */
  lemma RemoveAbsentId(xs: seq<Record>, id: Option<string>)
    requires forall i :: 0 <= i < |xs| ==> IdOf(xs[i]) != id
    ensures RemoveById(xs, id) == xs
  {
    FilterKeepsAll(xs, HasOtherId(id));
  }

  /** `xs.map(x => hit(x) ? f(x) : x)`. */
  function MapWhere<T>(xs: seq<T>, hit: T -> bool, f: T -> T): (r: seq<T>)
    ensures |r| == |xs|
    ensures forall i :: 0 <= i < |xs| ==> r[i] == if hit(xs[i]) then f(xs[i]) else xs[i]
  {
    if xs == [] then [] else [if hit(xs[0]) then f(xs[0]) else xs[0]] + MapWhere(xs[1..], hit, f)
  }

  /** `{...a, ...b}`: every field of b, and the fields of a that b does not have. */
  function Merge(a: Record, b: Record): (r: Record)
    ensures r.Keys == a.Keys + b.Keys
    ensures forall k :: k in b ==> r[k] == b[k]
    ensures forall k :: k in a && k !in b ==> r[k] == a[k]
  {
    a + b
  }

  /** `xs.filter((_, i) => i !== index)`: drop the element at `index`; any other index drops nothing. */
  function DropIndex<T>(xs: seq<T>, index: int): (r: seq<T>)
    ensures 0 <= index < |xs| ==> r == xs[..index] + xs[index + 1..]
    ensures !(0 <= index < |xs|) ==> r == xs
  {
    if xs == [] then []
    else if index == 0 then xs[1..]
    else
      var rest := DropIndex(xs[1..], index - 1);
      assert 0 <= index < |xs| ==> xs[1..][..index - 1] == xs[1..index] && [xs[0]] + xs[1..index] == xs[..index];
      [xs[0]] + rest
  }

  /** `xs.map((x, i) => i === index ? f(x) : x)`: only the element at `index` changes. */
  function UpdateAt<T>(xs: seq<T>, index: int, f: T -> T): (r: seq<T>)
    ensures |r| == |xs|
    ensures forall i :: 0 <= i < |xs| && i != index ==> r[i] == xs[i]
    ensures 0 <= index < |xs| ==> r[index] == f(xs[index])
  {
    if xs == [] then []
    else (if index == 0 then [f(xs[0])] else [xs[0]]) + UpdateAt(xs[1..], index - 1, f)
  }

  /** Set one field of a record: `{...r, [field]: value}`. */
  function SetField(field: string, value: string): Record -> Record {
    (r: Record) => r[field := value]
  }
}
