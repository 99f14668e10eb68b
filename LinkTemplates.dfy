/**
  The two link shapes of the resource-link parser, as hand-written recognizers.

  The generic shape is the URI Template `/api/v{version}/{namespace}/{+id}`,
  the string-object shape `/api/v{version}/string_objects?value={+value}`.
  Matching is anchored at both ends. `{version}` and `{namespace}` capture a
  simple run (so never a '/'), `{+id}` and `{+value}` capture a reserved run
  up to the end of the link. A capture that is empty comes back as `None`,
  which is how the template library reports an unset variable.
 */
module LinkTemplates {
  import opened Wrappers
  import opened UriChars

  const API_PREFIX: string := "/api/v"
  const STRING_OBJECTS: string := "string_objects"
  const STRING_OBJECTS_QUERY: string := "string_objects?value="

  /** What a template match hands back for one variable. */
  function Capture(s: string): (c: Option<string>)
    ensures c.None? <==> s == []
    ensures c.Some? ==> c.value == s
    ensures Text(c) == s
  {
    if s == [] then None else Some(s)
  }

  /** The captured text, `""` for an unset variable (Ruby's `x || ''`). */
  function Text(c: Option<string>): string {
    if c.Some? then c.value else ""
  }

  /** The generic link with the given texts in place of its variables. */
  function ResourceLink(version: string, namespace: string, id: string): string {
    API_PREFIX + (version + ("/" + (namespace + ("/" + id))))
  }

  /** The string-object link with the given texts in place of its variables. */
  function StringObjectLink(version: string, value: string): string {
    API_PREFIX + (version + ("/" + (STRING_OBJECTS_QUERY + value)))
  }

  datatype ResourceCaptures = ResourceCaptures(version: Option<string>, namespace: Option<string>, id: Option<string>)

  datatype StringObjectCaptures = StringObjectCaptures(version: Option<string>, value: Option<string>)

  /**
    Matches `link` against `/api/v{version}/{namespace}/{+id}`. The version
    ends at the first '/' after the prefix and the namespace at the next one,
    because neither may contain a '/'; the id is the rest of the link.
   */
  function ExtractResource(link: string): (r: Option<ResourceCaptures>)
    ensures r.Some? ==>
      && link == ResourceLink(Text(r.value.version), Text(r.value.namespace), Text(r.value.id))
      && IsRun(Simple, Text(r.value.version))
      && IsRun(Simple, Text(r.value.namespace))
      && IsRun(Reserved, Text(r.value.id))
      && r.value.version != Some("") && r.value.namespace != Some("") && r.value.id != Some("")
  {
    match StripPrefix(link, API_PREFIX)
    case None => None
    case Some(rest) =>
      match SplitAtFirst(rest, '/')
      case None => None
      case Some((version, tail)) =>
        match SplitAtFirst(tail, '/')
        case None => None
        case Some((namespace, id)) =>
          if IsRun(Simple, version) && IsRun(Simple, namespace) && IsRun(Reserved, id) then
            Some(ResourceCaptures(Capture(version), Capture(namespace), Capture(id)))
          else
            None
  }

  /** Every link of the generic shape is recognized, with exactly its own texts captured. */
  lemma ExtractResourceComplete(version: string, namespace: string, id: string)
    requires IsRun(Simple, version) && IsRun(Simple, namespace) && IsRun(Reserved, id)
    ensures ExtractResource(ResourceLink(version, namespace, id))
            == Some(ResourceCaptures(Capture(version), Capture(namespace), Capture(id)))
  {
    var link := ResourceLink(version, namespace, id);
    SimpleRunExcludes(version, '/');
    SimpleRunExcludes(namespace, '/');
    StripPrefixOf(API_PREFIX, version + ("/" + (namespace + ("/" + id))));
    SplitAtFirstOf(version, '/', namespace + ("/" + id));
    SplitAtFirstOf(namespace, '/', id);
  }

  /**
    Matches `link` against `/api/v{version}/string_objects?value={+value}`.
    The version ends at the first '/' after the prefix; everything after the
    literal query prefix is the value.
   */
  function ExtractStringObject(link: string): (r: Option<StringObjectCaptures>)
    ensures r.Some? ==>
      && link == StringObjectLink(Text(r.value.version), Text(r.value.value))
      && IsRun(Simple, Text(r.value.version))
      && IsRun(Reserved, Text(r.value.value))
      && r.value.version != Some("") && r.value.value != Some("")
  {
    match StripPrefix(link, API_PREFIX)
    case None => None
    case Some(rest) =>
      match SplitAtFirst(rest, '/')
      case None => None
      case Some((version, tail)) =>
        match StripPrefix(tail, STRING_OBJECTS_QUERY)
        case None => None
        case Some(value) =>
          if IsRun(Simple, version) && IsRun(Reserved, value) then
            Some(StringObjectCaptures(Capture(version), Capture(value)))
          else
            None
  }

  /** Every link of the string-object shape is recognized, with exactly its own texts captured. */
  lemma ExtractStringObjectComplete(version: string, value: string)
    requires IsRun(Simple, version) && IsRun(Reserved, value)
    ensures ExtractStringObject(StringObjectLink(version, value))
            == Some(StringObjectCaptures(Capture(version), Capture(value)))
  {
    var link := StringObjectLink(version, value);
    SimpleRunExcludes(version, '/');
    StripPrefixOf(API_PREFIX, version + ("/" + (STRING_OBJECTS_QUERY + value)));
    SplitAtFirstOf(version, '/', STRING_OBJECTS_QUERY + value);
    StripPrefixOf(STRING_OBJECTS_QUERY, value);
  }

  /** Whatever precedes the first '/' after the string-object literal contains its '?'. */
  lemma QueryHoldsQuestionMark(value: string)
    ensures SplitAtFirst(STRING_OBJECTS_QUERY + value, '/').Some? ==>
              '?' in SplitAtFirst(STRING_OBJECTS_QUERY + value, '/').value.0
  {
    var head := "string_objects?";
    assert STRING_OBJECTS_QUERY + value == head + ("value=" + value);
    SplitAtFirstKeepsPrefix(head, "value=" + value, '/');
    match SplitAtFirst(STRING_OBJECTS_QUERY + value, '/')
    case None =>
    case Some((namespace, _)) =>
      assert namespace[14] == head[14] == '?';
  }

  /** Hence that text is no namespace. */
  lemma QueryIsNoNamespace(value: string)
    ensures SplitAtFirst(STRING_OBJECTS_QUERY + value, '/').Some? ==>
              !IsRun(Simple, SplitAtFirst(STRING_OBJECTS_QUERY + value, '/').value.0)
  {
    QueryHoldsQuestionMark(value);
    match SplitAtFirst(STRING_OBJECTS_QUERY + value, '/')
    case None =>
    case Some((namespace, _)) =>
      SimpleRunExcludes(namespace, '?');
  }

  /** A string-object link whose version is a simple run is no generic link. */
  lemma StringObjectLinkIsNoResourceLink(version: string, value: string)
    requires IsRun(Simple, version)
    ensures ExtractResource(StringObjectLink(version, value)).None?
  {
    var query := STRING_OBJECTS_QUERY + value;
    SimpleRunExcludes(version, '/');
    StripPrefixOf(API_PREFIX, version + ("/" + query));
    SplitAtFirstOf(version, '/', query);
    QueryIsNoNamespace(value);
  }

  /**
    No link has both shapes: in a string-object link the text between the
    version and the next '/' contains the '?' of the query, which a namespace
    cannot hold.
   */
  lemma ShapesDisjoint(link: string)
    ensures ExtractStringObject(link).Some? ==> ExtractResource(link).None?
  {
    match ExtractStringObject(link)
    case None =>
    case Some(c) =>
      StringObjectLinkIsNoResourceLink(Text(c.version), Text(c.value));
  }

  /**
    A link whose version would open with a character that no simple run
    admits has neither shape.
   */
  lemma NoShapeWithBadVersionStart(rest: string)
    requires rest != [] && rest[0] != '/' && rest[0] != '%' && !IsUnreserved(rest[0])
    ensures ExtractResource(API_PREFIX + rest).None? && ExtractStringObject(API_PREFIX + rest).None?
  {
    StripPrefixOf(API_PREFIX, rest);
    assert rest == [rest[0]] + rest[1..];
    SplitAtFirstKeepsPrefix([rest[0]], rest[1..], '/');
    match SplitAtFirst(rest, '/')
    case None =>
    case Some((version, _)) =>
      NoRunOpeningWith(Simple, version);
  }

}
