/**
 * The references a document carries into Paperless-ngx: its correspondent,
 * looked up on the server and created when missing (main.ts:69-98), and its
 * tags, each routed by category to `document_type` or `tags` and resolved
 * against the lists fetched once at start-up, creating what is missing
 * (main.ts:101-165). Those lists are parameters here and are never updated.
 */
module References {
  import opened Wrappers
  import opened Docspell
  import opened Paperless
  import opened Settings

  const CorrespondentField := "correspondent"
  const DocumentTypeField := "document_type"
  const TagsField := "tags"

  /** `list.find(x => x.name === name)`: the first entity with exactly that name. */
  function FindByName(entities: seq<Entity>, name: string): (r: Option<Entity>)
    ensures r.None? <==> forall i :: 0 <= i < |entities| ==> entities[i].name != name
    ensures r.Some? ==> exists i :: 0 <= i < |entities| && entities[i] == r.value && r.value.name == name &&
                                   forall j :: 0 <= j < i ==> entities[j].name != name
  {
    if entities == [] then None
    else if entities[0].name == name then
      Some(entities[0])
    else
      var r := FindByName(entities[1..], name);
      if r.Some? then
        var i :| 0 <= i < |entities[1..]| && entities[1..][i] == r.value && r.value.name == name &&
                 forall j :: 0 <= j < i ==> entities[1..][j].name != name;
        assert entities[i + 1] == r.value;
        r
      else r
  }

  /** Where a tag goes (main.ts:147, 155): the document-type category is tested first. */
  datatype Route = ToDocumentType | ToTags | Dropped

  function RouteOf(cfg: Config, t: Tag): Route
  {
    if t.category == cfg.documentTypeCategory then ToDocumentType
    else if t.category == cfg.tagCategory then ToTags
    else Dropped
  }

  /** A tag in both configured categories is a document type; a tag in neither is dropped. */
  lemma RouteOfCases(cfg: Config, t: Tag)
    ensures RouteOf(cfg, t) == ToDocumentType <==> t.category == cfg.documentTypeCategory
    ensures RouteOf(cfg, t) == ToTags <==> t.category == cfg.tagCategory && t.category != cfg.documentTypeCategory
    ensures RouteOf(cfg, t) == Dropped <==> t.category != cfg.documentTypeCategory && t.category != cfg.tagCategory
    ensures cfg.documentTypeCategory == cfg.tagCategory ==> RouteOf(cfg, t) != ToTags
  {
  }

  /** The requests a step of the script makes, the form fields it appends, and how it failed, if it did. */
  datatype Effect = Effect(fields: seq<Field>, calls: seq<Call>, failure: Option<Failure>)

  /**
   * Resolving `name` against `cache` to one `field` (main.ts:148-154 for
   * document types, 156-162 for tags): the first cached entry of that name
   * without a request, otherwise a create request sent as the `n`-th request
   * of the run, whose failure throws.
   */
  function Resolve(server: Server, n: nat, kind: Kind, field: string, cache: seq<Entity>, name: string): Effect
  {
    match FindByName(cache, name) {
      case Some(e) => Effect([Field(field, Number(e.id))], [], None)
      case None =>
        var c := Create(kind, name, MatchingAlgorithm);
        var resp := server.respond(n, c);
        if resp.ok then Effect([Field(field, Number(resp.id))], [c], None)
        else Effect([], [c], Some(CreateFailed(kind, resp.statusText)))
    }
  }

  /** One iteration of the loop of main.ts:146-164. */
  function TagEffect(server: Server, n: nat, cfg: Config, docTypes: seq<Entity>, tags: seq<Entity>, t: Tag): Effect
  {
    match RouteOf(cfg, t) {
      case ToDocumentType => Resolve(server, n, DocumentTypeKind, DocumentTypeField, docTypes, t.name)
      case ToTags => Resolve(server, n, TagKind, TagsField, tags, t.name)
      case Dropped => Effect([], [], None)
    }
  }

  /** `addTags(formData, ts)` (main.ts:145-165) from the `n`-th request of the run on; the first failure ends it. */
  function TagsEffect(server: Server, n: nat, cfg: Config, docTypes: seq<Entity>, tags: seq<Entity>, ts: seq<Tag>): Effect
  {
    if |ts| == 0 then Effect([], [], None)
    else
      var pre := TagsEffect(server, n, cfg, docTypes, tags, ts[..|ts| - 1]);
      if pre.failure.Some? then pre
      else
        var e := TagEffect(server, n + |pre.calls|, cfg, docTypes, tags, ts[|ts| - 1]);
        Effect(pre.fields + e.fields, pre.calls + e.calls, e.failure)
  }

  /** The cached id a routed tag resolves to without a request, if any. */
  function CachedId(cfg: Config, docTypes: seq<Entity>, tags: seq<Entity>, t: Tag): Option<int>
  {
    match RouteOf(cfg, t) {
      case ToDocumentType => if FindByName(docTypes, t.name).Some? then Some(FindByName(docTypes, t.name).value.id) else None
      case ToTags => if FindByName(tags, t.name).Some? then Some(FindByName(tags, t.name).value.id) else None
      case Dropped => None
    }
  }

  /** The field a routed tag is appended as. */
  function FieldOf(r: Route): string
  {
    match r {
      case ToDocumentType => DocumentTypeField
      case ToTags => TagsField
      case Dropped => ""
    }
  }

  /** The tags that are not dropped, in order. */
  function Routed(cfg: Config, ts: seq<Tag>): seq<Tag>
  {
    if |ts| == 0 then []
    else Routed(cfg, ts[..|ts| - 1]) + (if RouteOf(cfg, ts[|ts| - 1]) == Dropped then [] else [ts[|ts| - 1]])
  }

  /** The create request a tag needs: one for each routed, uncached occurrence. */
  function Needed(cfg: Config, docTypes: seq<Entity>, tags: seq<Entity>, t: Tag): seq<Call>
  {
    match RouteOf(cfg, t) {
      case ToDocumentType => if FindByName(docTypes, t.name).Some? then [] else [Create(DocumentTypeKind, t.name, MatchingAlgorithm)]
      case ToTags => if FindByName(tags, t.name).Some? then [] else [Create(TagKind, t.name, MatchingAlgorithm)]
      case Dropped => []
    }
  }

  function AllNeeded(cfg: Config, docTypes: seq<Entity>, tags: seq<Entity>, ts: seq<Tag>): seq<Call>
  {
    if |ts| == 0 then []
    else AllNeeded(cfg, docTypes, tags, ts[..|ts| - 1]) + Needed(cfg, docTypes, tags, ts[|ts| - 1])
  }

  /** What one tag does, when it does not fail. */
  lemma {:induction false} TagEffectShape(server: Server, n: nat, cfg: Config, docTypes: seq<Entity>, tags: seq<Entity>, t: Tag)
    requires TagEffect(server, n, cfg, docTypes, tags, t).failure.None?
    ensures var e := TagEffect(server, n, cfg, docTypes, tags, t);
      e.calls == Needed(cfg, docTypes, tags, t) &&
      |e.fields| == (if RouteOf(cfg, t) == Dropped then 0 else 1) &&
      (RouteOf(cfg, t) != Dropped ==> e.fields[0].name == FieldOf(RouteOf(cfg, t))) &&
      (CachedId(cfg, docTypes, tags, t).Some? ==> e.fields[0].value == Number(CachedId(cfg, docTypes, tags, t).value)) &&
      (RouteOf(cfg, t) != Dropped && CachedId(cfg, docTypes, tags, t).None? ==>
         |e.calls| == 1 && e.fields[0].value == Number(server.respond(n, e.calls[0]).id))
  {
  }

  /**
   * The field a routed tag `t` appends when the routed tags `before` it
   * were resolved from the `n`-th request on: its route's field name,
   * carrying the first cached id if one matches, and otherwise the id the
   * server gave back for the one create request `t` needs.
   */
  predicate ResolvedField(server: Server, n: nat, cfg: Config, docTypes: seq<Entity>, tags: seq<Entity>,
                          before: seq<Tag>, t: Tag, f: Field)
  {
    f.name == FieldOf(RouteOf(cfg, t)) &&
    match CachedId(cfg, docTypes, tags, t) {
      case Some(id) => f.value == Number(id)
      case None =>
        var c := Needed(cfg, docTypes, tags, t);
        |c| == 1 && f.value == Number(server.respond(n + |AllNeeded(cfg, docTypes, tags, before)|, c[0]).id)
    }
  }

  /** One field per routed tag, in order, each the one `ResolvedField` describes. */
  predicate FieldsResolved(server: Server, n: nat, cfg: Config, docTypes: seq<Entity>, tags: seq<Entity>,
                           routed: seq<Tag>, fields: seq<Field>)
  {
    |fields| == |routed| &&
    forall j {:trigger fields[j]} :: 0 <= j < |fields| ==>
      ResolvedField(server, n, cfg, docTypes, tags, routed[..j], routed[j], fields[j])
  }

  /** The id a name resolves to against `cache`: the first cached entry's, otherwise the one the server returns for its create request, sent as the `m`-th request. */
  function ResolvedId(server: Server, m: nat, kind: Kind, cache: seq<Entity>, name: string): int
  {
    match FindByName(cache, name) {
      case Some(e) => e.id
      case None => server.respond(m, Create(kind, name, MatchingAlgorithm)).id
    }
  }

  /** The field a tag contributes when nothing fails, its create request (if any) being the `m`-th request. */
  function TagField(server: Server, m: nat, cfg: Config, docTypes: seq<Entity>, tags: seq<Entity>, t: Tag): seq<Field>
  {
    match RouteOf(cfg, t) {
      case ToDocumentType => [Field(DocumentTypeField, Number(ResolvedId(server, m, DocumentTypeKind, docTypes, t.name)))]
      case ToTags => [Field(TagsField, Number(ResolvedId(server, m, TagKind, tags, t.name)))]
      case Dropped => []
    }
  }

  /**
   * The fields `ts` contribute when nothing fails: each tag's `TagField`,
   * its create request coming after the creates of the tags before it.
   */
  function RoutedFields(server: Server, n: nat, cfg: Config, docTypes: seq<Entity>, tags: seq<Entity>, ts: seq<Tag>): seq<Field>
  {
    if |ts| == 0 then []
    else RoutedFields(server, n, cfg, docTypes, tags, ts[..|ts| - 1]) +
         TagField(server, n + |AllNeeded(cfg, docTypes, tags, ts[..|ts| - 1])|, cfg, docTypes, tags, ts[|ts| - 1])
  }

  /**
   * When `addTags` does not fail it appends exactly one field per routed
   * tag, in tag order, as `document_type` or `tags`, carrying the first
   * cached id whenever one matches and otherwise the id the server gave
   * back for its create request; and it sends exactly one create request
   * per routed occurrence that no cached entry matches.
   */
  lemma {:induction false} TagsEffectShape(server: Server, n: nat, cfg: Config, docTypes: seq<Entity>, tags: seq<Entity>, ts: seq<Tag>)
    requires TagsEffect(server, n, cfg, docTypes, tags, ts).failure.None?
    ensures var e := TagsEffect(server, n, cfg, docTypes, tags, ts);
      e.calls == AllNeeded(cfg, docTypes, tags, ts) && FieldsResolved(server, n, cfg, docTypes, tags, Routed(cfg, ts), e.fields)
  {
    TagsEffectFields(server, n, cfg, docTypes, tags, ts);
    RoutedFieldsResolved(server, n, cfg, docTypes, tags, ts);
  }

  /** Without a failure, `addTags` sends the creates its tags need and appends their `RoutedFields`. */
  lemma {:induction false} TagsEffectFields(server: Server, n: nat, cfg: Config, docTypes: seq<Entity>, tags: seq<Entity>, ts: seq<Tag>)
    requires TagsEffect(server, n, cfg, docTypes, tags, ts).failure.None?
    decreases |ts|
    ensures TagsEffect(server, n, cfg, docTypes, tags, ts) ==
            Effect(RoutedFields(server, n, cfg, docTypes, tags, ts), AllNeeded(cfg, docTypes, tags, ts), None)
  {
    if 0 < |ts| {
      TagsPrefixOk(server, n, cfg, docTypes, tags, ts);
      TagsEffectFields(server, n, cfg, docTypes, tags, ts[..|ts| - 1]);
      TagsLast(server, n, cfg, docTypes, tags, ts);
    }
  }

  /** The last tag's step, given what the others sent and appended. */
  lemma {:induction false} TagsLast(server: Server, n: nat, cfg: Config, docTypes: seq<Entity>, tags: seq<Entity>, ts: seq<Tag>)
    requires 0 < |ts| && TagsEffect(server, n, cfg, docTypes, tags, ts).failure.None?
    requires TagsEffect(server, n, cfg, docTypes, tags, ts[..|ts| - 1]) ==
             Effect(RoutedFields(server, n, cfg, docTypes, tags, ts[..|ts| - 1]), AllNeeded(cfg, docTypes, tags, ts[..|ts| - 1]), None)
    ensures TagsEffect(server, n, cfg, docTypes, tags, ts) ==
            Effect(RoutedFields(server, n, cfg, docTypes, tags, ts), AllNeeded(cfg, docTypes, tags, ts), None)
  {
    TagsAppend(server, n, cfg, docTypes, tags, ts, RoutedFields(server, n, cfg, docTypes, tags, ts[..|ts| - 1]),
               AllNeeded(cfg, docTypes, tags, ts[..|ts| - 1]));
    RoutedFieldsStep(server, n, cfg, docTypes, tags, ts);
    RoutedStep(cfg, docTypes, tags, ts);
  }

  /** Without a failure, the last tag appends its `TagField` and sends the create it needs after those of the others. */
  lemma {:induction false} TagsAppend(server: Server, n: nat, cfg: Config, docTypes: seq<Entity>, tags: seq<Entity>, ts: seq<Tag>,
                                      fields0: seq<Field>, calls0: seq<Call>)
    requires 0 < |ts| && TagsEffect(server, n, cfg, docTypes, tags, ts).failure.None?
    requires TagsEffect(server, n, cfg, docTypes, tags, ts[..|ts| - 1]) == Effect(fields0, calls0, None)
    ensures TagsEffect(server, n, cfg, docTypes, tags, ts) ==
            Effect(fields0 + TagField(server, n + |calls0|, cfg, docTypes, tags, ts[|ts| - 1]),
                   calls0 + Needed(cfg, docTypes, tags, ts[|ts| - 1]), None)
  {
    LastFields(server, n + |calls0|, cfg, docTypes, tags, ts[|ts| - 1]);
  }

  /** Without a failure, one tag sends the create it needs and appends its `TagField`. */
  lemma {:induction false} LastFields(server: Server, m: nat, cfg: Config, docTypes: seq<Entity>, tags: seq<Entity>, t: Tag)
    requires TagEffect(server, m, cfg, docTypes, tags, t).failure.None?
    ensures TagEffect(server, m, cfg, docTypes, tags, t) ==
            Effect(TagField(server, m, cfg, docTypes, tags, t), Needed(cfg, docTypes, tags, t), None)
  {
  }

  /** Pointwise, `RoutedFields` holds one `ResolvedField` per routed tag. */
  lemma {:induction false} RoutedFieldsResolved(server: Server, n: nat, cfg: Config, docTypes: seq<Entity>, tags: seq<Entity>, ts: seq<Tag>)
    decreases |ts|
    ensures FieldsResolved(server, n, cfg, docTypes, tags, Routed(cfg, ts), RoutedFields(server, n, cfg, docTypes, tags, ts))
  {
    if 0 < |ts| {
      RoutedFieldsResolved(server, n, cfg, docTypes, tags, ts[..|ts| - 1]);
      RoutedFieldsLast(server, n, cfg, docTypes, tags, ts);
    }
  }

  /** The last tag's field, after those of the others. */
  lemma {:induction false} RoutedFieldsLast(server: Server, n: nat, cfg: Config, docTypes: seq<Entity>, tags: seq<Entity>, ts: seq<Tag>)
    requires 0 < |ts|
    requires FieldsResolved(server, n, cfg, docTypes, tags, Routed(cfg, ts[..|ts| - 1]), RoutedFields(server, n, cfg, docTypes, tags, ts[..|ts| - 1]))
    ensures FieldsResolved(server, n, cfg, docTypes, tags, Routed(cfg, ts), RoutedFields(server, n, cfg, docTypes, tags, ts))
  {
    var k := |ts| - 1;
    var t := ts[k];
    var routed0 := Routed(cfg, ts[..k]);
    var m := n + |AllNeeded(cfg, docTypes, tags, ts[..k])|;
    var f := TagField(server, m, cfg, docTypes, tags, t);
    assert Routed(cfg, ts) == routed0 + (if RouteOf(cfg, t) == Dropped then [] else [t]) by {
      RoutedStep(cfg, docTypes, tags, ts);
    }
    assert RoutedFields(server, n, cfg, docTypes, tags, ts) == RoutedFields(server, n, cfg, docTypes, tags, ts[..k]) + f by {
      RoutedFieldsStep(server, n, cfg, docTypes, tags, ts);
    }
    assert (RouteOf(cfg, t) == Dropped ==> f == []) &&
           (RouteOf(cfg, t) != Dropped ==> |f| == 1 && ResolvedField(server, n, cfg, docTypes, tags, routed0, t, f[0])) by {
      AllNeededOfRouted(cfg, docTypes, tags, ts[..k]);
      TagFieldResolved(server, n, m, cfg, docTypes, tags, routed0, t);
    }
    FieldsStep(server, n, cfg, docTypes, tags, routed0, RoutedFields(server, n, cfg, docTypes, tags, ts[..k]), t,
               f, Routed(cfg, ts), RoutedFields(server, n, cfg, docTypes, tags, ts));
  }

  /** A tag's `TagField` is the `ResolvedField` after the routed tags `before`, whose creates come from the `n`-th request on. */
  lemma {:induction false} TagFieldResolved(server: Server, n: nat, m: nat, cfg: Config, docTypes: seq<Entity>, tags: seq<Entity>,
                         before: seq<Tag>, t: Tag)
    requires m == n + |AllNeeded(cfg, docTypes, tags, before)|
    ensures var f := TagField(server, m, cfg, docTypes, tags, t);
      (RouteOf(cfg, t) == Dropped ==> f == []) &&
      (RouteOf(cfg, t) != Dropped ==> |f| == 1 && ResolvedField(server, n, cfg, docTypes, tags, before, t, f[0]))
  {
  }

  /** The fields of the routed tags so far, followed by those of one more tag. */
  lemma {:induction false} FieldsStep(server: Server, n: nat, cfg: Config, docTypes: seq<Entity>, tags: seq<Entity>,
                   routed0: seq<Tag>, preFields: seq<Field>, t: Tag, last: seq<Field>, routed: seq<Tag>, fields: seq<Field>)
    requires FieldsResolved(server, n, cfg, docTypes, tags, routed0, preFields)
    requires routed == routed0 + (if RouteOf(cfg, t) == Dropped then [] else [t])
    requires RouteOf(cfg, t) == Dropped ==> last == []
    requires RouteOf(cfg, t) != Dropped ==> |last| == 1 && ResolvedField(server, n, cfg, docTypes, tags, routed0, t, last[0])
    requires fields == preFields + last
    ensures FieldsResolved(server, n, cfg, docTypes, tags, routed, fields)
  {
    forall j | 0 <= j < |fields|
      ensures ResolvedField(server, n, cfg, docTypes, tags, routed[..j], routed[j], fields[j])
    {
      if j < |preFields| {
        assert fields[j] == preFields[j] && routed[j] == routed0[j] && routed[..j] == routed0[..j];
      } else {
        assert fields[j] == last[0] && routed[j] == t && routed[..j] == routed0;
      }
    }
  }

  /** When `addTags` does not fail, neither does it over all but the last tag. */
  lemma {:induction false} TagsPrefixOk(server: Server, n: nat, cfg: Config, docTypes: seq<Entity>, tags: seq<Entity>, ts: seq<Tag>)
    requires 0 < |ts| && TagsEffect(server, n, cfg, docTypes, tags, ts).failure.None?
    ensures TagsEffect(server, n, cfg, docTypes, tags, ts[..|ts| - 1]).failure.None?
  {
  }

  /** `RoutedFields`, one tag at a time. */
  lemma {:induction false} RoutedFieldsStep(server: Server, n: nat, cfg: Config, docTypes: seq<Entity>, tags: seq<Entity>, ts: seq<Tag>)
    requires 0 < |ts|
    ensures RoutedFields(server, n, cfg, docTypes, tags, ts) ==
            RoutedFields(server, n, cfg, docTypes, tags, ts[..|ts| - 1]) +
            TagField(server, n + |AllNeeded(cfg, docTypes, tags, ts[..|ts| - 1])|, cfg, docTypes, tags, ts[|ts| - 1])
  {
  }

  /** The routed tags and the creates they need, one tag at a time. */
  lemma {:induction false} RoutedStep(cfg: Config, docTypes: seq<Entity>, tags: seq<Entity>, ts: seq<Tag>)
    requires 0 < |ts|
    ensures var k := |ts| - 1;
      AllNeeded(cfg, docTypes, tags, ts) == AllNeeded(cfg, docTypes, tags, ts[..k]) + Needed(cfg, docTypes, tags, ts[k]) &&
      Routed(cfg, ts) == Routed(cfg, ts[..k]) + (if RouteOf(cfg, ts[k]) == Dropped then [] else [ts[k]])
  {
  }

  /** Dropped tags need no request, so the routed tags need the same creates as all of them. */
  lemma {:induction false} AllNeededOfRouted(cfg: Config, docTypes: seq<Entity>, tags: seq<Entity>, ts: seq<Tag>)
    ensures AllNeeded(cfg, docTypes, tags, Routed(cfg, ts)) == AllNeeded(cfg, docTypes, tags, ts)
  {
    if ts != [] {
      var k := |ts| - 1;
      AllNeededOfRouted(cfg, docTypes, tags, ts[..k]);
      var r := Routed(cfg, ts[..k]);
      if RouteOf(cfg, ts[k]) != Dropped {
        assert Routed(cfg, ts) == r + [ts[k]];
        assert (r + [ts[k]])[..|r|] == r;
      } else {
        assert Routed(cfg, ts) == r;
        assert Needed(cfg, docTypes, tags, ts[k]) == [];
      }
    }
  }

  /** Every field `addTags` appends, whether or not it fails, is a `document_type` or a `tags` field. */
  lemma {:induction false} TagsFieldNames(server: Server, n: nat, cfg: Config, docTypes: seq<Entity>, tags: seq<Entity>, ts: seq<Tag>)
    ensures forall f :: f in TagsEffect(server, n, cfg, docTypes, tags, ts).fields ==>
              f.name == DocumentTypeField || f.name == TagsField
  {
    if ts != [] {
      var k := |ts| - 1;
      TagsFieldNames(server, n, cfg, docTypes, tags, ts[..k]);
    }
  }

  /** The lists are never updated, so a repeated uncached tag is created once per occurrence. */
  lemma {:induction false} RepeatedMissCreatedTwice(cfg: Config, docTypes: seq<Entity>, tags: seq<Entity>, t: Tag)
    requires RouteOf(cfg, t) != Dropped && CachedId(cfg, docTypes, tags, t).None?
    ensures |Needed(cfg, docTypes, tags, t)| == 1
    ensures AllNeeded(cfg, docTypes, tags, [t, t]) == Needed(cfg, docTypes, tags, t) + Needed(cfg, docTypes, tags, t)
  {
    assert [t, t][..1] == [t];
    assert [t][..0] == [];
    assert AllNeeded(cfg, docTypes, tags, [t]) == Needed(cfg, docTypes, tags, t);
    if RouteOf(cfg, t) == ToDocumentType {
      assert FindByName(docTypes, t.name).None?;
    } else {
      assert FindByName(tags, t.name).None?;
    }
  }

  /** Once a tag has failed, the later tags do nothing. */
  lemma {:induction false} TagsEffectStops(server: Server, n: nat, cfg: Config, docTypes: seq<Entity>, tags: seq<Entity>, ts: seq<Tag>, i: nat)
    requires i <= |ts|
    requires TagsEffect(server, n, cfg, docTypes, tags, ts[..i]).failure.Some?
    decreases |ts| - i
    ensures TagsEffect(server, n, cfg, docTypes, tags, ts) == TagsEffect(server, n, cfg, docTypes, tags, ts[..i])
  {
    if i < |ts| {
      assert ts[..i + 1][..i] == ts[..i];
      TagsEffectStops(server, n, cfg, docTypes, tags, ts, i + 1);
    } else {
      assert ts[..i] == ts;
    }
  }

  /** The decision of main.ts:69-98 from the `n`-th request of the run on. */
  datatype Lookup = Lookup(calls: seq<Call>, result: Result<int, Failure>)

  function CorrespondentLookup(server: Server, n: nat, org: Organisation): Lookup
  {
    var s := server.search(n, org.name);
    if s.count == 0 then
      var c := Create(CorrespondentKind, org.name, MatchingAlgorithm);
      var resp := server.respond(n + 1, c);
      Lookup([FindCorrespondent(org.name), c],
             if resp.ok then Ok(resp.id) else Err(CreateFailed(CorrespondentKind, resp.statusText)))
    else
      Lookup([FindCorrespondent(org.name)], if |s.ids| > 0 then Ok(s.ids[0]) else Err(NoSearchResult(org.name)))
  }

  /**
   * A correspondent is created exactly when the search counts none; then
   * the id is the created one's, or the run fails when creation is refused.
   * Otherwise the id is the first search result's.
   */
  lemma CorrespondentDecision(server: Server, n: nat, org: Organisation)
    ensures var l := CorrespondentLookup(server, n, org);
      var s := server.search(n, org.name);
      var c := Create(CorrespondentKind, org.name, MatchingAlgorithm);
      l.calls[0] == FindCorrespondent(org.name) &&
      (c in l.calls <==> s.count == 0) &&
      (s.count == 0 ==> (l.result.Ok? <==> server.respond(n + 1, c).ok)) &&
      (s.count == 0 && l.result.Ok? ==> l.result.value == server.respond(n + 1, c).id) &&
      (s.count != 0 && |s.ids| > 0 ==> l.result == Ok(s.ids[0]))
  {
  }

  /** `getCorrespondentId(correspondent)` (main.ts:69-98). */
  method GetCorrespondentId(api: Api, correspondent: Organisation) returns (r: Result<int, Failure>)
    modifies api
    ensures var l := CorrespondentLookup(api.server, |old(api.log)|, correspondent);
      api.log == old(api.log) + l.calls && r == l.result
  {
    var found := api.Find(correspondent.name);
    if found.count == 0 {
      var response := api.Send(Create(CorrespondentKind, correspondent.name, MatchingAlgorithm));
      if !response.ok {
        return Err(CreateFailed(CorrespondentKind, response.statusText));
      }
      return Ok(response.id);
    }
    if |found.ids| == 0 {
      return Err(NoSearchResult(correspondent.name));
    }
    r := Ok(found.ids[0]);
  }

  /** `createPaperlessDocumentType` / `createPaperlessTag` or the cache hit before them, appended to `form`. */
  method ResolveInto(form: FormData, api: Api, kind: Kind, field: string, cache: seq<Entity>, name: string)
    returns (failure: Option<Failure>)
    modifies form, api
    ensures var e := Resolve(api.server, |old(api.log)|, kind, field, cache, name);
      form.fields == old(form.fields) + e.fields && api.log == old(api.log) + e.calls && failure == e.failure
  {
    var cached := FindByName(cache, name);
    if cached.Some? {
      form.Append(field, Number(cached.value.id));
      return None;
    }
    var response := api.Send(Create(kind, name, MatchingAlgorithm));
    if !response.ok {
      return Some(CreateFailed(kind, response.statusText));
    }
    form.Append(field, Number(response.id));
    failure := None;
  }

  /** One iteration of the loop of main.ts:146-164. */
  method AddTag(form: FormData, api: Api, cfg: Config, docTypes: seq<Entity>, tags: seq<Entity>, tag: Tag)
    returns (failure: Option<Failure>)
    modifies form, api
    ensures var e := TagEffect(api.server, |old(api.log)|, cfg, docTypes, tags, tag);
      form.fields == old(form.fields) + e.fields && api.log == old(api.log) + e.calls && failure == e.failure
  {
    if tag.category == cfg.documentTypeCategory {
      failure := ResolveInto(form, api, DocumentTypeKind, DocumentTypeField, docTypes, tag.name);
    } else if tag.category == cfg.tagCategory {
      failure := ResolveInto(form, api, TagKind, TagsField, tags, tag.name);
    } else {
      failure := None;
    }
  }

  /** The loop step of `AddTags`. */
  lemma {:induction false} TagsEffectStep(server: Server, n: nat, cfg: Config, docTypes: seq<Entity>, tags: seq<Entity>, ts: seq<Tag>, i: nat)
    requires i < |ts|
    requires TagsEffect(server, n, cfg, docTypes, tags, ts[..i]).failure.None?
    ensures var pre := TagsEffect(server, n, cfg, docTypes, tags, ts[..i]);
      var e := TagEffect(server, n + |pre.calls|, cfg, docTypes, tags, ts[i]);
      TagsEffect(server, n, cfg, docTypes, tags, ts[..i + 1]) == Effect(pre.fields + e.fields, pre.calls + e.calls, e.failure)
  {
    assert ts[..i + 1][..i] == ts[..i];
  }

  /** The bookkeeping of one iteration of `AddTags`: appending a tag's effect to a prefix's is appending the longer prefix's. */
  lemma {:induction false} EffectsGrow(fields0: seq<Field>, log0: seq<Call>, fields1: seq<Field>, log1: seq<Call>,
                 fields2: seq<Field>, log2: seq<Call>, pre: Effect, e: Effect, next: Effect)
    requires next == Effect(pre.fields + e.fields, pre.calls + e.calls, e.failure)
    requires fields1 == fields0 + pre.fields && log1 == log0 + pre.calls
    requires fields2 == fields1 + e.fields && log2 == log1 + e.calls
    ensures fields2 == fields0 + next.fields && log2 == log0 + next.calls
  {
    assert (fields0 + pre.fields) + e.fields == fields0 + (pre.fields + e.fields);
    assert (log0 + pre.calls) + e.calls == log0 + (pre.calls + e.calls);
  }

  /** One iteration of `AddTags`: the form and log after a tag are those of the longer prefix. */
  lemma {:induction false} TagsGrow(server: Server, n: nat, cfg: Config, docTypes: seq<Entity>, tags: seq<Entity>, ts: seq<Tag>, i: nat,
                 fields0: seq<Field>, log0: seq<Call>, fields1: seq<Field>, log1: seq<Call>,
                 fields2: seq<Field>, log2: seq<Call>, f: Option<Failure>)
    requires i < |ts| && n == |log0|
    requires var pre := TagsEffect(server, n, cfg, docTypes, tags, ts[..i]);
      pre.failure.None? && fields1 == fields0 + pre.fields && log1 == log0 + pre.calls
    requires var e := TagEffect(server, |log1|, cfg, docTypes, tags, ts[i]);
      fields2 == fields1 + e.fields && log2 == log1 + e.calls && f == e.failure
    ensures var next := TagsEffect(server, n, cfg, docTypes, tags, ts[..i + 1]);
      fields2 == fields0 + next.fields && log2 == log0 + next.calls && f == next.failure
  {
    var pre := TagsEffect(server, n, cfg, docTypes, tags, ts[..i]);
    TagsEffectStep(server, n, cfg, docTypes, tags, ts, i);
    EffectsGrow(fields0, log0, fields1, log1, fields2, log2, pre, TagEffect(server, |log1|, cfg, docTypes, tags, ts[i]),
                TagsEffect(server, n, cfg, docTypes, tags, ts[..i + 1]));
  }

  /** `addTags(formData, tags)` (main.ts:145-165). */
  method AddTags(form: FormData, api: Api, cfg: Config, docTypes: seq<Entity>, tags: seq<Entity>, ts: seq<Tag>)
    returns (failure: Option<Failure>)
    modifies form, api
    ensures var e := TagsEffect(api.server, |old(api.log)|, cfg, docTypes, tags, ts);
      form.fields == old(form.fields) + e.fields && api.log == old(api.log) + e.calls && failure == e.failure
  {
    ghost var n, fields0, log0 := |api.log|, form.fields, api.log;
    for i := 0 to |ts|
      invariant TagsEffect(api.server, n, cfg, docTypes, tags, ts[..i]).failure.None?
      invariant form.fields == fields0 + TagsEffect(api.server, n, cfg, docTypes, tags, ts[..i]).fields
      invariant api.log == log0 + TagsEffect(api.server, n, cfg, docTypes, tags, ts[..i]).calls
    {
      ghost var fieldsMid, logMid := form.fields, api.log;
      var f := AddTag(form, api, cfg, docTypes, tags, ts[i]);
      TagsGrow(api.server, n, cfg, docTypes, tags, ts, i, fields0, log0, fieldsMid, logMid, form.fields, api.log, f);
      if f.Some? {
        TagsEffectStops(api.server, n, cfg, docTypes, tags, ts, i + 1);
        return f;
      }
    }
    assert ts[..|ts|] == ts;
    failure := None;
  }
}
