/**
 * The Paperless-ngx side as main.ts sees it: entities with an id and a name,
 * the requests main.ts sends, the replies it reads, and the multipart form
 * it builds for an upload.
 *
 * The server is an oracle: the reply to a request depends on the request and
 * on its position in the run's sequence of requests, so a model of any
 * server behaviour, including failures, is one choice of `Server`.
 */
module Paperless {

  /** An existing correspondent, tag or document type (interfaces/paperless.ts). */
  datatype Entity = Entity(id: int, name: string)

  /** The three kinds of reference entity main.ts can create. */
  datatype Kind = CorrespondentKind | TagKind | DocumentTypeKind

  /** The `matching_algorithm` every create request sends (main.ts:86, 110, 132). */
  const MatchingAlgorithm: int := 6

  /** A value of a form field: a string, a number sent with `toString()`, or a file part. */
  datatype Value =
    | Text(text: string)
    | Number(n: int)
    | Document(fileName: string, source: string)

  datatype Field = Field(name: string, value: Value)

  /** A request main.ts sends. */
  datatype Call =
    | FindCorrespondent(name: string)
    | Create(kind: Kind, name: string, matchingAlgorithm: int)
    | PostDocument(fields: seq<Field>)

  /** What main.ts reads of a reply to a create or upload request. */
  datatype Response = Response(ok: bool, status: int, statusText: string, id: int)

  /** What main.ts reads of a `name__iexact` correspondent search. */
  datatype Search = Search(count: nat, ids: seq<int>)

  /** The server oracle: replies to the n-th request of the run. */
  datatype Server = Server(search: (nat, string) -> Search, respond: (nat, Call) -> Response)

  /** The HTTP client: every request is appended to `log` and answered by `server`. */
  class Api {
    var log: seq<Call>
    const server: Server

    constructor (server: Server)
      ensures log == [] && this.server == server
    {
      log := [];
      this.server := server;
    }

    /** GET correspondents/?name__iexact=name (main.ts:70-75). */
    method Find(name: string) returns (s: Search)
      modifies this
      ensures log == old(log) + [FindCorrespondent(name)]
      ensures s == server.search(|old(log)|, name)
    {
      s := server.search(|log|, name);
      log := log + [FindCorrespondent(name)];
    }

    /** A POST request: an entity creation or a document upload. */
    method Send(c: Call) returns (r: Response)
      modifies this
      ensures log == old(log) + [c]
      ensures r == server.respond(|old(log)|, c)
    {
      r := server.respond(|log|, c);
      log := log + [c];
    }
  }

  /** The fields of `fields` not named `name`, in order. */
  function Without(fields: seq<Field>, name: string): (r: seq<Field>)
    ensures forall f :: f in r <==> f in fields && f.name != name
  {
    if fields == [] then []
    else
      var last := fields[|fields| - 1];
      Without(fields[..|fields| - 1], name) + (if last.name == name then [] else [last])
  }

  /** How many fields are named `name`. */
  function CountField(fields: seq<Field>, name: string): nat
  {
    if fields == [] then 0
    else CountField(fields[..|fields| - 1], name) + (if fields[|fields| - 1].name == name then 1 else 0)
  }

  /** Removing a name that no field has changes nothing. */
  lemma {:induction false} WithoutAbsent(fields: seq<Field>, name: string)
    requires forall i :: 0 <= i < |fields| ==> fields[i].name != name
    ensures Without(fields, name) == fields
  {
    if fields != [] {
      var k := |fields| - 1;
      WithoutAbsent(fields[..k], name);
      assert fields == fields[..k] + [fields[k]];
    }
  }

  /** Deleting a field just appended to a form without that name restores the form. */
  lemma AppendThenDelete(fields: seq<Field>, name: string, v: Value)
    requires forall i :: 0 <= i < |fields| ==> fields[i].name != name
    ensures Without(fields + [Field(name, v)], name) == fields
  {
    assert (fields + [Field(name, v)])[..|fields|] == fields;
    WithoutAbsent(fields, name);
  }

  /** A form without `name` holds exactly one `name` field once one is appended. */
  lemma {:induction false} AppendedOnce(fields: seq<Field>, name: string, v: Value)
    requires forall i :: 0 <= i < |fields| ==> fields[i].name != name
    ensures CountField(fields + [Field(name, v)], name) == 1
  {
    assert (fields + [Field(name, v)])[..|fields|] == fields;
    NoneCounted(fields, name);
  }

  lemma {:induction false} NoneCounted(fields: seq<Field>, name: string)
    requires forall i :: 0 <= i < |fields| ==> fields[i].name != name
    ensures CountField(fields, name) == 0
  {
    if fields != [] {
      NoneCounted(fields[..|fields| - 1], name);
    }
  }

  /** The multipart body of an upload, mutated in place by main.ts (the `FormData` object). */
  class FormData {
    var fields: seq<Field>

    constructor ()
      ensures fields == []
    {
      fields := [];
    }

    /** `formData.append(name, value)`. */
    method Append(name: string, value: Value)
      modifies this
      ensures fields == old(fields) + [Field(name, value)]
    {
      fields := fields + [Field(name, value)];
    }

    /** `formData.delete(name)`: removes every field with that name. */
    method Delete(name: string)
      modifies this
      ensures fields == Without(old(fields), name)
    {
      var kept: seq<Field> := [];
      var i := 0;
      while i < |fields|
        invariant 0 <= i <= |fields|
        invariant kept == Without(fields[..i], name)
      {
        assert fields[..i + 1][..i] == fields[..i];
        if fields[i].name != name {
          kept := kept + [fields[i]];
        }
        i := i + 1;
      }
      assert fields[..i] == fields;
      fields := kept;
    }
  }
}
