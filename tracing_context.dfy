/**
 * The per-thread tracing context: a bag of string fields holding the group id
 * and the app map (service id to address, as JSON text) that travel with a
 * call from service to service.
 */
module Tracing {
  import opened Wrappers
  import Utf8
  import Base64
  import AppMapJson

  /** The field keys of TracingConstants (TracingConstants.java is not part of this model; the model relies only on the two being different). */
  const GroupIdKey: string := "groupId"
  const AppMapKey: string := "appMap"

  datatype TracingError =
    | NonGroupId       // IllegalStateException("non group id.") thrown by raiseNonGroupException
    | NullAppMap       // the group has no app-map field, so the app map is dereferenced as null
    | MalformedAppMap  // fastjson rejects the app-map text
    | MalformedImport  // an imported app-map value is not Base64 of UTF-8 text

  /**
   * Java 8's Character.isWhitespace: the Unicode 6.2 space, line and paragraph
   * separators other than the no-break spaces U+00A0, U+2007 and U+202F, and
   * the controls U+0009 to U+000D and U+001C to U+001F. U+180E counts as a
   * space separator in Unicode 6.2 (Java 9 and later no longer include it).
   * No letter, digit, Base64 character or '{' is whitespace.
   */
  predicate IsWhitespace(c: char)
    ensures IsWhitespace(c) ==> !Base64.IsEncodedChar(c) && c != '{'
  {
    var n := c as int;
    || 0x09 <= n <= 0x0D
    || 0x1C <= n <= 0x20
    || n == 0x1680 || n == 0x180E
    || (0x2000 <= n <= 0x200A && n != 0x2007)
    || n == 0x2028 || n == 0x2029
    || n == 0x205F || n == 0x3000
  }

  /** Spring's StringUtils.hasText: the string has a character that is not whitespace. */
  function HasText(s: string): (r: bool)
    ensures r <==> exists i :: 0 <= i < |s| && !IsWhitespace(s[i])
  {
    if s == [] then false else !IsWhitespace(s[0]) || HasText(s[1..])
  }

  predicate StartsWith(s: string, prefix: string) {
    |prefix| <= |s| && s[..|prefix|] == prefix
  }

  /** The app-map test of `init`, as written: `!startsWith("{") || !contains("{")`. */
  function NeedsRewrite(v: string): (r: bool)
    ensures r <==> !(|v| > 0 && v[0] == '{')
  {
    !StartsWith(v, "{") || '{' !in v
  }

  /** `baseString2appMap` as written: the Base64 text of a non-empty string's UTF-8 bytes; "" is returned unchanged. */
  function BaseString2AppMap(s: string): (r: string)
    ensures r == Base64.Encode(Utf8.Encode(s))
  {
    if s != "" then Base64.Encode(Utf8.Encode(s)) else s
  }

  /** What `init` as written does to the caller's map: the app-map value is replaced by BaseString2AppMap when NeedsRewrite holds. */
  function RewriteAppMap(initFields: map<string, string>): (r: map<string, string>)
    ensures r.Keys == initFields.Keys
    ensures forall k :: k in initFields && k != AppMapKey ==> r[k] == initFields[k]
    ensures AppMapKey in initFields && !NeedsRewrite(initFields[AppMapKey]) ==> r == initFields
    ensures AppMapKey in initFields && NeedsRewrite(initFields[AppMapKey]) ==>
              r[AppMapKey] == Base64.Encode(Utf8.Encode(initFields[AppMapKey]))
  {
    if AppMapKey in initFields && NeedsRewrite(initFields[AppMapKey])
    then initFields[AppMapKey := BaseString2AppMap(initFields[AppMapKey])]
    else initFields
  }

  /**
   * The corrected import of an app map: Base64-decode a non-empty value and
   * read the bytes as UTF-8. `None` when the value is not Base64 of UTF-8.
   */
  function IntendedBaseString2AppMap(s: string): (r: Option<string>)
    ensures s == "" ==> r == Some("")
    ensures r.Some? ==> Base64.Decode(s) == Some(Utf8.Encode(r.value))
  {
    if s == "" then Some(s)
    else match Base64.Decode(s)
      case None => None
      case Some(bytes) =>
        match Utf8.Decode(bytes)
        case None => None
        case Some(text) => Utf8.DecodeIsEncode(bytes, text); Some(text)
  }

  /** The corrected import succeeds exactly on the Base64 text of the UTF-8 bytes of some string, and returns that string. */
  lemma IntendedImportAcceptsExactly(s: string, t: string)
    ensures IntendedBaseString2AppMap(s) == Some(t) <==> Base64.Decode(s) == Some(Utf8.Encode(t))
  {
    if Base64.Decode(s) == Some(Utf8.Encode(t)) {
      if s == "" {
        Utf8.EncodeEmpty(t);
      } else {
        Utf8.DecodeEncode(t);
      }
    }
  }

  /** The corrected `init` rewrite: an app-map value that is not JSON text is decoded, and rejected when it cannot be. */
  function IntendedRewriteAppMap(initFields: map<string, string>): (r: Result<map<string, string>, TracingError>)
    ensures r.Ok? ==> r.value.Keys == initFields.Keys
    ensures r.Ok? ==> forall k :: k in initFields && k != AppMapKey ==> r.value[k] == initFields[k]
    ensures AppMapKey !in initFields || !NeedsRewrite(initFields[AppMapKey]) ==> r == Ok(initFields)
    ensures r.Err? <==>
      AppMapKey in initFields && NeedsRewrite(initFields[AppMapKey])
      && IntendedBaseString2AppMap(initFields[AppMapKey]).None?
    ensures r.Err? ==> r.error == MalformedImport
    ensures r.Ok? && AppMapKey in initFields && NeedsRewrite(initFields[AppMapKey]) ==>
      Base64.Decode(initFields[AppMapKey]) == Some(Utf8.Encode(r.value[AppMapKey]))
  {
    if AppMapKey in initFields && NeedsRewrite(initFields[AppMapKey]) then
      match IntendedBaseString2AppMap(initFields[AppMapKey])
      case None => Err(MalformedImport)
      case Some(appMap) => Ok(initFields[AppMapKey := appMap])
    else Ok(initFields)
  }

  /** The corrected `init` rewrite fails exactly when the value it must decode is not Base64 of any string's UTF-8 bytes. */
  lemma IntendedRewriteFailsExactly(initFields: map<string, string>)
    ensures IntendedRewriteAppMap(initFields).Err? <==>
      AppMapKey in initFields && NeedsRewrite(initFields[AppMapKey])
      && forall t :: Base64.Decode(initFields[AppMapKey]) != Some(Utf8.Encode(t))
  {
    if AppMapKey in initFields && NeedsRewrite(initFields[AppMapKey]) {
      var v := initFields[AppMapKey];
      var decoded := IntendedBaseString2AppMap(v);
      if decoded.Some? {
        assert Base64.Decode(v) == Some(Utf8.Encode(decoded.value));
      } else {
        forall t
          ensures Base64.Decode(v) != Some(Utf8.Encode(t))
        {
          IntendedImportAcceptsExactly(v, t);
        }
      }
    }
  }

  class TracingContext {
    /** `null` until the first `init`. */
    var fields: Option<map<string, string>>

    constructor ()
      ensures fields == None
    {
      fields := None;
    }

    /** The fields, empty when there are none yet. */
    function Fields(): map<string, string>
      reads this
    {
      if fields.Some? then fields.value else map[]
    }

    predicate HasGroup()
      reads this
      ensures HasGroup() <==>
        fields.Some? && GroupIdKey in fields.value &&
        exists i :: 0 <= i < |fields.value[GroupIdKey]| && !IsWhitespace(fields.value[GroupIdKey][i])
    {
      fields.Some? && GroupIdKey in fields.value && HasText(fields.value[GroupIdKey])
    }

    method BeginTransactionGroup(randomKey: string)
      modifies this
      ensures old(HasGroup()) ==> fields == old(fields)
      ensures !old(HasGroup()) ==> fields == Some(old(Fields())[GroupIdKey := randomKey][AppMapKey := "{}"])
      ensures HasGroup() <==> old(HasGroup()) || HasText(randomKey)
      ensures !old(HasGroup()) && HasText(randomKey) ==> GroupId() == Ok(randomKey) && AppMap() == Ok(Some(map[]))
    {
      if HasGroup() {
        return;
      }
      var initFields := map[GroupIdKey := randomKey, AppMapKey := "{}"];
      assert !NeedsRewrite(initFields[AppMapKey]);
      ghost var before := Fields();
      var _ := Init(initFields);
      assert IntendedRewriteAppMap(initFields) == Ok(initFields);
      assert GroupIdKey != AppMapKey;
      assert before + initFields == before[GroupIdKey := randomKey][AppMapKey := "{}"];
      assert fields.value[GroupIdKey] == randomKey;
      assert fields.value[AppMapKey] == "{}";
      assert AppMapJson.Parse("{}") == Some([]);
    }

    /**
     * Merges `initFields` into the fields, after decoding an imported app map;
     * returns the caller's map as `init` leaves it. A value that cannot be
     * decoded stops the merge (the fields exist from then on, unchanged).
     */
    method Init(initFields: map<string, string>) returns (r: Result<map<string, string>, TracingError>)
      modifies this
      ensures r == IntendedRewriteAppMap(initFields)
      ensures r.Ok? ==> fields == Some(old(Fields()) + r.value)
      ensures r.Err? ==> fields == Some(old(Fields()))
    {
      if fields.None? {
        fields := Some(map[]);
      }
      var initFieldsAfter := initFields;
      if AppMapKey in initFieldsAfter {
        var appMapVal := initFieldsAfter[AppMapKey];
        if NeedsRewrite(appMapVal) {
          var decoded := IntendedBaseString2AppMap(appMapVal);
          if decoded.None? {
            return Err(MalformedImport);
          }
          initFieldsAfter := initFieldsAfter[AppMapKey := decoded.value];
        }
      }
      fields := Some(fields.value + initFieldsAfter);
      r := Ok(initFieldsAfter);
    }

    function GroupId(): (r: Result<string, TracingError>)
      reads this
      ensures r.Ok? <==> HasGroup()
      ensures r.Ok? ==> GroupIdKey in Fields() && r.value == Fields()[GroupIdKey] && HasText(r.value)
      ensures r.Err? ==> r.error == NonGroupId
    {
      if HasGroup() then Ok(fields.value[GroupIdKey]) else Err(NonGroupId)
    }

    /**
     * fastjson reads the app map as null when the field is missing or its
     * text is empty (an empty app map survives `init`'s import unchanged).
     */
    predicate NullAppMapText()
      reads this
      requires fields.Some?
    {
      AppMapKey !in fields.value || fields.value[AppMapKey] == ""
    }

    /** The members of the app-map text, read the way `addApp` reads them. */
    function AppMapMembers(): (r: Result<seq<AppMapJson.Member>, TracingError>)
      reads this
      requires HasGroup()
      ensures r.Ok? ==> AppMapKey in fields.value && AppMapJson.Parse(fields.value[AppMapKey]) == Some(r.value)
      ensures AppMapKey in fields.value && AppMapJson.Parse(fields.value[AppMapKey]).Some? ==> r.Ok?
      ensures r.Err? ==> r.error == (if NullAppMapText() then NullAppMap else MalformedAppMap)
    {
      if NullAppMapText() then Err(NullAppMap)
      else match AppMapJson.Parse(fields.value[AppMapKey])
        case None => Err(MalformedAppMap)
        case Some(ms) => Ok(ms)
    }

    /** Registers a participant; the first address registered for a service id wins. */
    method AddApp(serviceId: string, address: string) returns (r: Result<(), TracingError>)
      modifies this
      ensures !old(HasGroup()) ==> r == Err(NonGroupId) && fields == old(fields)
      ensures old(HasGroup()) && old(AppMapMembers()).Err? ==> r == Err(old(AppMapMembers()).error) && fields == old(fields)
      ensures old(HasGroup()) && old(AppMapMembers()).Ok? ==>
        var ms := old(AppMapMembers()).value;
        && r == Ok(())
        && (serviceId in AppMapJson.ToMap(ms) ==> fields == old(fields))
        && (serviceId !in AppMapJson.ToMap(ms) ==>
              fields == Some(old(fields.value)[AppMapKey := AppMapJson.Serialize(ms + [AppMapJson.Member(serviceId, address)])])
              && AppMap() == Ok(Some(AppMapJson.ToMap(ms)[serviceId := address])))
    {
      if HasGroup() {
        var parsed := AppMapMembers();
        if parsed.Err? {
          return Err(parsed.error);
        }
        var map_ := parsed.value;
        if serviceId in AppMapJson.ToMap(map_) {
          return Ok(());
        }
        var updated := map_ + [AppMapJson.Member(serviceId, address)];
        fields := Some(fields.value[AppMapKey := AppMapJson.Serialize(updated)]);
        AppMapJson.ParseSerialize(updated);
        AppMapJson.ToMapAppend(map_, AppMapJson.Member(serviceId, address));
        return Ok(());
      }
      return Err(NonGroupId);
    }

    /** The app map as Base64 text of its UTF-8 bytes, for a request header. */
    function AppMapBase64String(): (r: Result<string, TracingError>)
      reads this
      ensures !HasGroup() ==> r == Err(NonGroupId)
      ensures HasGroup() && AppMapKey !in Fields() ==> r == Err(NullAppMap)
      ensures r.Ok? ==> HasGroup() && AppMapKey in Fields()
                        && Base64.Decode(r.value) == Some(Utf8.Encode(Fields()[AppMapKey]))
      ensures HasGroup() && AppMapKey in Fields() ==> r == Ok(Base64.Encode(Utf8.Encode(Fields()[AppMapKey])))
    {
      if HasGroup() then
        if AppMapKey in fields.value then
          Base64.DecodeEncode(Utf8.Encode(fields.value[AppMapKey]));
          Ok(Base64.Encode(Utf8.Encode(fields.value[AppMapKey])))
        else Err(NullAppMap)
      else Err(NonGroupId)
    }

    /** The app map as a map; `None` when the group's app-map text is missing or empty (fastjson parses both to null). */
    function AppMap(): (r: Result<Option<map<string, string>>, TracingError>)
      reads this
      ensures !HasGroup() ==> r == Err(NonGroupId)
      ensures HasGroup() && (AppMapKey !in Fields() || Fields()[AppMapKey] == "") ==> r == Ok(None)
      ensures r.Ok? && r.value.Some? ==>
        HasGroup() && AppMapKey in Fields() &&
        exists ms :: AppMapJson.Parse(Fields()[AppMapKey]) == Some(ms) && r.value.value == AppMapJson.ToMap(ms)
      ensures HasGroup() && AppMapKey in Fields() && Fields()[AppMapKey] != "" ==>
        (r.Ok? <==> AppMapJson.Parse(Fields()[AppMapKey]).Some?)
      ensures r.Err? ==> r.error == (if HasGroup() then MalformedAppMap else NonGroupId)
    {
      if HasGroup() then
        if NullAppMapText() then Ok(None)
        else match AppMapJson.Parse(fields.value[AppMapKey])
          case None => Err(MalformedAppMap)
          case Some(ms) => Ok(Some(AppMapJson.ToMap(ms)))
      else Err(NonGroupId)
    }

    /** Empties the thread's slot, whichever context it holds. */
    method Destroy(slot: TracingSlot)
      modifies slot
      ensures slot.current == null
    {
      if slot.current != null {
        slot.current := null;
      }
    }
  }

  /** The thread-local slot holding the current thread's tracing context. */
  class TracingSlot {
    var current: TracingContext?

    constructor ()
      ensures current == null
    {
      current := null;
    }

    /** `TracingContext.tracing()`: the slot's context, created with no fields when the slot is empty. */
    method Tracing() returns (t: TracingContext)
      modifies this
      ensures old(current) != null ==> t == old(current) && unchanged(t)
      ensures old(current) == null ==> fresh(t) && t.fields == None && !t.HasGroup()
      ensures current == t
    {
      if current == null {
        current := new TracingContext();
      }
      t := current;
    }
  }

  /**
   * The `init` rewrite as written undoes nothing it was meant to undo: the
   * Base64 text that `appMapBase64String` exports never starts with '{', so on
   * import it is encoded once more and the app map no longer reads as JSON.
   */
  lemma ImportOfExportReencodes(appMap: string)
    requires |appMap| > 0 && appMap[0] == '{'
    ensures var exported := Base64.Encode(Utf8.Encode(appMap));
            NeedsRewrite(exported)
            && var imported := RewriteAppMap(map[AppMapKey := exported])[AppMapKey];
            imported == Base64.Encode(Utf8.Encode(exported)) && imported != appMap
            && AppMapJson.Parse(imported).None?
  {
    var exported := Base64.Encode(Utf8.Encode(appMap));
    Base64.EncodedHasNoBrace(Utf8.Encode(appMap));
    assert |Utf8.Encode(appMap)| > 0;
    assert exported[0] != '{';
    var imported := Base64.Encode(Utf8.Encode(exported));
    assert |Utf8.Encode(exported)| > 0;
    Base64.EncodedHasNoBrace(Utf8.Encode(exported));
    assert imported[0] != '{';
  }

  /** The empty app map "{}" comes back from export and import as "ZTMwPQ==". */
  lemma EmptyAppMapRoundTrip()
    ensures Base64.Encode(Utf8.Encode("{}")) == "e30="
    ensures BaseString2AppMap("{}") == "e30="
    ensures RewriteAppMap(map[AppMapKey := "e30="])[AppMapKey] == "ZTMwPQ=="
  {
    assert Utf8.Encode("{}") == [123, 125] by {
      assert "{}"[1..] == "}";
    }
    assert Base64.Encode([123, 125]) == "e30=" by {
      Base64.EncodeTwo(123, 125);
    }
    assert Utf8.Encode("e30=") == [101, 51, 48, 61] by {
      assert "e30="[1..] == "30=" && "30="[1..] == "0=" && "0="[1..] == "=";
    }
    assert Base64.Encode([101, 51, 48, 61]) == "ZTMwPQ==" by {
      ReencodedEmptyMap();
    }
    assert NeedsRewrite("e30=");
  }

  /** The four bytes of "e30=" Base64-encode to "ZTMwPQ==". */
  lemma ReencodedEmptyMap()
    ensures Base64.Encode([101, 51, 48, 61]) == "ZTMwPQ=="
  {
    var b: seq<Utf8.byte> := [101, 51, 48, 61];
    Base64.EncodeGroup(b);
    assert b[3..] == [61];
    Base64.EncodeOne(61);
    ReencodedPieces();
  }

  lemma ReencodedPieces()
    ensures Base64.Quad(101, 51, 48) == "ZTMw" && Base64.Single(61) == "PQ=="
  {
  }

  /** The corrected import recovers exactly the app map that was exported. */
  lemma IntendedImportUndoesExport(appMap: string)
    ensures IntendedBaseString2AppMap(Base64.Encode(Utf8.Encode(appMap))) == Some(appMap)
  {
    Base64.DecodeEncode(Utf8.Encode(appMap));
    Utf8.DecodeEncode(appMap);
    Utf8.EncodeEmpty(appMap);
  }

  /** The corrected `init` rewrite turns an exported app map back into the app map. */
  lemma IntendedRewriteUndoesExport(appMap: string)
    ensures IntendedRewriteAppMap(map[AppMapKey := Base64.Encode(Utf8.Encode(appMap))]) == Ok(map[AppMapKey := appMap])
  {
    var exported := Base64.Encode(Utf8.Encode(appMap));
    assert NeedsRewrite(exported) && IntendedBaseString2AppMap(exported) == Some(appMap) by {
      IntendedImportUndoesExport(appMap);
      ExportNeedsRewrite(appMap);
    }
    IntendedRewriteSingleton(exported, appMap);
  }

  lemma IntendedRewriteSingleton(value: string, appMap: string)
    requires NeedsRewrite(value) && IntendedBaseString2AppMap(value) == Some(appMap)
    ensures IntendedRewriteAppMap(map[AppMapKey := value]) == Ok(map[AppMapKey := appMap])
  {
    var m := map[AppMapKey := value];
    IntendedRewriteDecodes(m, appMap);
    assert m[AppMapKey := appMap] == map[AppMapKey := appMap];
  }

  /** An exported app map never starts with '{', so `init` always sends it through the import. */
  lemma ExportNeedsRewrite(appMap: string)
    ensures NeedsRewrite(Base64.Encode(Utf8.Encode(appMap)))
  {
    Base64.EncodedHasNoBrace(Utf8.Encode(appMap));
  }

  lemma IntendedRewriteDecodes(initFields: map<string, string>, appMap: string)
    requires AppMapKey in initFields && NeedsRewrite(initFields[AppMapKey])
    requires IntendedBaseString2AppMap(initFields[AppMapKey]) == Some(appMap)
    ensures IntendedRewriteAppMap(initFields) == Ok(initFields[AppMapKey := appMap])
  {
  }
}
