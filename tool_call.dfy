/**
 * Tool-call naming and tool-call record validation (src/utils/toolCall.ts).
 *
 * The separator, the hash prefix and the MD5 function come from outside this
 * file in the source; here they are parameters.
 */
module ToolCall {
  import opened Wrappers
  import opened JsonValue

  /** OpenAI rejects function names of this length or longer. */
  const NAME_LIMIT: nat := 64

  // ---------------------------------------------------------------------------
  // genToolCallingName
  // ---------------------------------------------------------------------------

  /** The optional trailing `SEP + type`: absent for a missing, empty or 'default' type. */
  function TypeSuffix(sep: string, pluginType: string): (r: string)
    ensures pluginType == "" || pluginType == "default" ==> r == ""
    ensures pluginType != "" && pluginType != "default" ==> r == sep + pluginType
  {
    if pluginType != "" && pluginType != "default" then sep + pluginType else ""
  }

  /** The name before any shortening: `identifier + SEP + name + suffix`. */
  function PlainName(sep: string, identifier: string, name: string, pluginType: string): string {
    identifier + sep + name + TypeSuffix(sep, pluginType)
  }

  /** The shortened name: the method name is replaced by `MD5_PREFIX + md5(name)`. */
  function HashedName(sep: string, md5Prefix: string, md5: string -> string,
                      identifier: string, name: string, pluginType: string): string {
    identifier + sep + md5Prefix + md5(name) + TypeSuffix(sep, pluginType)
  }

  /**
   * The call name a plugin method is exposed under. A caller that omits the
   * type passes "default", the parameter's default value in the source.
   */
  function GenToolCallingName(sep: string, md5Prefix: string, md5: string -> string,
                              identifier: string, name: string, pluginType: string): (r: string)
    ensures |r| >= |identifier + sep| && r[..|identifier + sep|] == identifier + sep
    ensures var suffix := TypeSuffix(sep, pluginType);
            |r| >= |suffix| && r[|r| - |suffix|..] == suffix
    ensures r == PlainName(sep, identifier, name, pluginType) || r == HashedName(sep, md5Prefix, md5, identifier, name, pluginType)
  {
    var apiName := PlainName(sep, identifier, name, pluginType);
    if |apiName| >= NAME_LIMIT then HashedName(sep, md5Prefix, md5, identifier, name, pluginType) else apiName
  }

  /** A name under the limit is used as it is. */
  lemma ShortNameKept(sep: string, md5Prefix: string, md5: string -> string,
                      identifier: string, name: string, pluginType: string)
    requires |PlainName(sep, identifier, name, pluginType)| < NAME_LIMIT
    ensures GenToolCallingName(sep, md5Prefix, md5, identifier, name, pluginType)
            == PlainName(sep, identifier, name, pluginType)
  {
  }

  /** A name of 64 characters or more, 64 included, is hashed. */
  lemma LongNameHashed(sep: string, md5Prefix: string, md5: string -> string,
                       identifier: string, name: string, pluginType: string)
    requires |PlainName(sep, identifier, name, pluginType)| >= NAME_LIMIT
    ensures GenToolCallingName(sep, md5Prefix, md5, identifier, name, pluginType)
            == HashedName(sep, md5Prefix, md5, identifier, name, pluginType)
    ensures |GenToolCallingName(sep, md5Prefix, md5, identifier, name, pluginType)|
            == |identifier| + |sep| + |md5Prefix| + |md5(name)| + |TypeSuffix(sep, pluginType)|
  {
  }

  /**
   * In the hashed branch the method name matters only through its digest:
   * two long names with equal digests get the same call name.
   */
  lemma HashedNameDependsOnDigestOnly(sep: string, md5Prefix: string, md5: string -> string,
                                      identifier: string, name1: string, name2: string, pluginType: string)
    requires |PlainName(sep, identifier, name1, pluginType)| >= NAME_LIMIT
    requires |PlainName(sep, identifier, name2, pluginType)| >= NAME_LIMIT
    requires md5(name1) == md5(name2)
    ensures GenToolCallingName(sep, md5Prefix, md5, identifier, name1, pluginType)
            == GenToolCallingName(sep, md5Prefix, md5, identifier, name2, pluginType)
  {
  }

  /** Strips a known prefix and suffix; the inverse of putting them around `mid`. */
  lemma {:induction false} StripAffixes(pre: string, mid1: string, mid2: string, suf: string)
    requires pre + mid1 + suf == pre + mid2 + suf
    ensures mid1 == mid2
  {
    var s := pre + mid1 + suf;
    assert mid1 == s[|pre|..|s| - |suf|];
    assert mid2 == (pre + mid2 + suf)[|pre|..|s| - |suf|];
  }

  /**
   * Decoding by lookup works: for one plugin and type, two method names that
   * both stay under the limit get the same call name only if they are equal,
   * and two hashed names coincide only if their digests do.
   */
  lemma {:induction false} CallNameDeterminesMethod(sep: string, md5Prefix: string, md5: string -> string,
                                                    identifier: string, name1: string, name2: string, pluginType: string)
    requires GenToolCallingName(sep, md5Prefix, md5, identifier, name1, pluginType)
             == GenToolCallingName(sep, md5Prefix, md5, identifier, name2, pluginType)
    ensures (|PlainName(sep, identifier, name1, pluginType)| < NAME_LIMIT
             && |PlainName(sep, identifier, name2, pluginType)| < NAME_LIMIT) ==> name1 == name2
    ensures (|PlainName(sep, identifier, name1, pluginType)| >= NAME_LIMIT
             && |PlainName(sep, identifier, name2, pluginType)| >= NAME_LIMIT) ==> md5(name1) == md5(name2)
  {
    var suffix := TypeSuffix(sep, pluginType);
    if |PlainName(sep, identifier, name1, pluginType)| < NAME_LIMIT
       && |PlainName(sep, identifier, name2, pluginType)| < NAME_LIMIT {
      assert identifier + sep + name1 + suffix == (identifier + sep) + name1 + suffix;
      assert identifier + sep + name2 + suffix == (identifier + sep) + name2 + suffix;
      StripAffixes(identifier + sep, name1, name2, suffix);
    }
    if |PlainName(sep, identifier, name1, pluginType)| >= NAME_LIMIT
       && |PlainName(sep, identifier, name2, pluginType)| >= NAME_LIMIT {
      assert identifier + sep + md5Prefix + md5(name1) + suffix == (identifier + sep + md5Prefix) + md5(name1) + suffix;
      assert identifier + sep + md5Prefix + md5(name2) + suffix == (identifier + sep + md5Prefix) + md5(name2) + suffix;
      StripAffixes(identifier + sep + md5Prefix, md5(name1), md5(name2), suffix);
    }
  }

  // ---------------------------------------------------------------------------
  // MessageToolCallSchema and parseToolCalls
  // ---------------------------------------------------------------------------

  datatype FunctionCall = FunctionCall(name: string, arguments: string)

  /** A validated tool call; `callType` and `func` are the source's `type` and `function`. */
  datatype ToolCallRecord = ToolCallRecord(id: string, callType: string, func: FunctionCall)

  /** The `function` object of a candidate record, or JSON null when there is none. */
  function FunctionPart(v: Json): Json {
    Member(v, "function").GetOr(JNull)
  }

  /** MessageToolCallSchema as a predicate: four string fields in the right places. */
  predicate IsToolCallShape(v: Json) {
    && StringMember(v, "id").Some?
    && StringMember(v, "type").Some?
    && StringMember(FunctionPart(v), "name").Some?
    && StringMember(FunctionPart(v), "arguments").Some?
  }

  /**
   * `MessageToolCallSchema.parse`: the record with its four string fields,
   * other keys dropped, or a failure when any field is missing or not a string.
   */
  function ParseToolCall(v: Json): (r: Option<ToolCallRecord>)
    ensures r.Some? <==> IsToolCallShape(v)
    ensures r.Some? ==> && StringMember(v, "id") == Some(r.value.id)
                        && StringMember(v, "type") == Some(r.value.callType)
                        && StringMember(FunctionPart(v), "name") == Some(r.value.func.name)
                        && StringMember(FunctionPart(v), "arguments") == Some(r.value.func.arguments)
  {
    match (StringMember(v, "id"), StringMember(v, "type"),
           StringMember(FunctionPart(v), "name"), StringMember(FunctionPart(v), "arguments"))
    case (Some(id), Some(t), Some(n), Some(a)) => Some(ToolCallRecord(id, t, FunctionCall(n, a)))
    case _ => None
  }

  /** The JSON form of a record, as the upstream sends it. */
  function ToJson(c: ToolCallRecord): Json {
    JObj(map[
      "id" := JStr(c.id),
      "type" := JStr(c.callType),
      "function" := JObj(map["name" := JStr(c.func.name), "arguments" := JStr(c.func.arguments)])
    ])
  }

  /** Validation accepts every serialised record and gives it back unchanged. */
  lemma ParseToolCallRoundTrip(c: ToolCallRecord)
    ensures ParseToolCall(ToJson(c)) == Some(c)
  {
    assert Member(ToJson(c), "function") == Some(JObj(map["name" := JStr(c.func.name), "arguments" := JStr(c.func.arguments)]));
  }

  /** `newMessage.map(MessageToolCallSchema.parse)`: fails as a whole when one element fails. */
  function ParseAll(items: seq<Json>): (r: Option<seq<ToolCallRecord>>)
    ensures r.Some? <==> forall i | 0 <= i < |items| :: IsToolCallShape(items[i])
    ensures r.Some? ==> |r.value| == |items|
    ensures r.Some? ==> forall i | 0 <= i < |items| :: Some(r.value[i]) == ParseToolCall(items[i])
  {
    if |items| == 0 then Some([])
    else
      match ParseToolCall(items[0])
      case None => None
      case Some(first) =>
        match ParseAll(items[1..])
        case None => None
        case Some(rest) => Some([first] + rest)
  }

  /**
   * parseToolCalls: a copy of `origin` followed by the validated records of
   * `newMessage`, or a failure (the source throws) when any element is invalid.
   */
  function ParseToolCalls(origin: seq<ToolCallRecord>, newMessage: seq<Json>): (r: Option<seq<ToolCallRecord>>)
    ensures r.Some? <==> forall i | 0 <= i < |newMessage| :: IsToolCallShape(newMessage[i])
    ensures r.Some? ==> |r.value| == |origin| + |newMessage|
    ensures r.Some? ==> r.value[..|origin|] == origin
    ensures r.Some? ==> forall i | 0 <= i < |newMessage| :: Some(r.value[|origin| + i]) == ParseToolCall(newMessage[i])
  {
    match ParseAll(newMessage)
    case None => None
    case Some(parsed) => Some(origin + parsed)
  }

  /** Records that arrive serialised are appended as they are. */
  lemma {:induction false} ParseToolCallsOfSerialised(origin: seq<ToolCallRecord>, calls: seq<ToolCallRecord>)
    ensures ParseToolCalls(origin, seq(|calls|, i requires 0 <= i < |calls| => ToJson(calls[i])))
            == Some(origin + calls)
  {
    var items := seq(|calls|, i requires 0 <= i < |calls| => ToJson(calls[i]));
    forall i | 0 <= i < |items| ensures ParseToolCall(items[i]) == Some(calls[i]) {
      ParseToolCallRoundTrip(calls[i]);
    }
    var r := ParseToolCalls(origin, items);
    assert r.Some?;
    assert r.value == origin + calls;
  }
}
