/** The requests the hook sends to the webhook: the parameter record built
    as a JavaScript object (insertion-ordered, one value per key), and the
    query-string or multipart form it is carried in. */
module Request {
  import opened Wrappers

  datatype Method = GET | POST

  /** The entries of a plain object, in `Object.entries` order. */
  type Entries = seq<(string, string)>

  ghost predicate KeysDistinct(e: Entries) {
    forall i, j :: 0 <= i < j < |e| ==> e[i].0 != e[j].0
  }

  /** The value an object with these entries holds for `key`, if any. */
  function Lookup(e: Entries, key: string): (r: Option<string>)
    ensures r.None? <==> forall i :: 0 <= i < |e| ==> e[i].0 != key
    ensures r.Some? ==> exists i :: 0 <= i < |e| && e[i] == (key, r.value)
    decreases |e|
  {
    if |e| == 0 then None
    else if e[0].0 == key then Some(e[0].1)
    else Lookup(e[1..], key)
  }

  /** Property assignment on an object: an existing key keeps its position and takes the
      new value; a new key is appended at the end. */
  function Assign(e: Entries, key: string, value: string): (r: Entries)
    ensures Lookup(e, key).None? ==> r == e + [(key, value)]
    ensures Lookup(e, key).Some? ==> |r| == |e|
    decreases |e|
  {
    if |e| == 0 then [(key, value)]
    else if e[0].0 == key then [(key, value)] + e[1..]
    else [e[0]] + Assign(e[1..], key, value)
  }

  /** After `obj[key] = value`, reading `key` gives `value` and every other
      key reads as before. */
  lemma {:induction false} AssignLookup(e: Entries, key: string, value: string, k: string)
    ensures Lookup(Assign(e, key, value), k) == if k == key then Some(value) else Lookup(e, k)
    decreases |e|
  {
    if |e| > 0 && e[0].0 != key {
      AssignLookup(e[1..], key, value, k);
    }
  }

  /** Assignment never duplicates a key, and keeps the order of the keys
      already present. */
  lemma {:induction false} AssignKeys(e: Entries, key: string, value: string)
    ensures var r := Assign(e, key, value);
      && (Lookup(e, key).Some? ==> forall i :: 0 <= i < |e| ==> r[i].0 == e[i].0)
      && (KeysDistinct(e) ==> KeysDistinct(r))
    decreases |e|
  {
    if |e| > 0 && e[0].0 != key {
      AssignKeys(e[1..], key, value);
      var r := Assign(e, key, value);
      var tail := Assign(e[1..], key, value);
      assert r == [e[0]] + tail;
      if KeysDistinct(e) {
        forall j | 0 <= j < |tail| ensures tail[j].0 != e[0].0 {
          if j < |e| - 1 {
            if Lookup(e[1..], key).Some? {
              assert tail[j].0 == e[1..][j].0;
            }
          } else {
            assert Lookup(e[1..], key).None?;
            assert tail[j].0 == key;
          }
        }
      }
    }
  }

  /** An attached file, opaque to the hook. */
  datatype File = File(name: string, content: seq<bv8>)

  datatype Part = Field(name: string, value: string) | FilePart(name: string, file: File)

  /** How the parameters travel: appended to the URL as a query string, or
      as the parts of a multipart form body. */
  datatype Payload = Query(params: Entries) | Form(parts: seq<Part>)

  datatype Request = Request(verb: Method, headers: map<string, string>, payload: Payload)

  /** The multipart form of a request: one text part per
      parameter in order, then one `files` part per file in order. */
  function FormOf(params: Entries, files: seq<File>): (parts: seq<Part>)
    ensures |parts| == |params| + |files|
    ensures forall i :: 0 <= i < |params| ==> parts[i] == Field(params[i].0, params[i].1)
    ensures forall j :: 0 <= j < |files| ==> parts[|params| + j] == FilePart("files", files[j])
  {
    seq(|params|, i requires 0 <= i < |params| => Field(params[i].0, params[i].1))
      + seq(|files|, j requires 0 <= j < |files| => FilePart("files", files[j]))
  }
}
