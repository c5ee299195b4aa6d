/** The UploadProfilePhoto task: resolve exactly one User, upload a photo as a
    ContentVersion, link its ContentDocument as that User's profile photo, and
    delete the document again when the platform rejects the link. */
module Photos {
  import opened Wrappers
  import opened Strings

  // ---------------------------------------------------------------------------
  // Values exchanged with the platform
  // ---------------------------------------------------------------------------

  /** One entry of the `fields` list of `User.describe()`. */
  datatype Field = Field(name: string, filterable: bool, soapType: string)

  /** One entry of a rejected request's error content; its `message` key may be absent. */
  datatype ErrorEntry = ErrorEntry(message: Option<string>)

  /** How a platform call fails: a malformed-request rejection carrying its error
      content, or any other error, which UploadProfilePhoto never catches. */
  datatype PlatformError = Malformed(content: seq<ErrorEntry>) | OtherError(description: string)

  /** One row of the User query. */
  datatype UserRecord = UserRecord(id: string)

  /** The answer of `ContentVersion.create`; `errors` is the printed error list. */
  datatype CreateResult = CreateResult(success: bool, id: string, errors: string)

  /** One `name = value` pair of the `filters` option, in the dictionary's order;
      `value` is the text the value formats to. */
  datatype Filter = Filter(name: string, value: string)

  /** The photo option as `pathlib` presents it: the path as printed, whether it exists,
      its file name and stem, and the base64 text of its bytes. */
  datatype PhotoFile = PhotoFile(path: string, present: bool, name: string, stem: string, encoded: string)

  /** Every call UploadProfilePhoto makes on the platform, in the order made. */
  datatype Call =
    | DescribeUser
    | GetIdentity
    | QueryAll(soql: string)
    | CreateContentVersion(pathOnClient: string, title: string, versionData: string)
    | Query(soql: string)
    | PostProfilePhoto(endpoint: string, fileId: string)
    | DeleteContentDocument(id: string)

  /** What the platform answers to each kind of call during one run. */
  datatype Responses = Responses(
    identity: Result<string, PlatformError>,
    userFields: Result<seq<Field>, PlatformError>,
    queryAll: Result<seq<UserRecord>, PlatformError>,
    create: Result<CreateResult, PlatformError>,
    documentQuery: Result<seq<string>, PlatformError>,
    postPhoto: Option<PlatformError>,
    delete: Option<PlatformError>)

  /** How UploadProfilePhoto fails: `CumulusCIException` with its message, a platform error
      it lets through, indexing an empty result, or calling a method that is not there. */
  datatype TaskError =
    | CumulusCIException(message: string)
    | Uncaught(cause: PlatformError)
    | IndexError
    | AttributeError(attribute: string)

  // ---------------------------------------------------------------------------
  // Error messages
  // ---------------------------------------------------------------------------

  const UnknownError: string := "Unknown error."
  const NoUsersMessage: string := "No Users found."
  const NoPhotoPrefix: string := "No photo found at path: "
  const CreateFailedPrefix: string := "Failed to create photo ContentVersion: "

  function MessageOf(e: ErrorEntry): string {
    match e.message
    case Some(m) => m
    case None => UnknownError
  }

  /** `join_errors` as intended: every entry's message, or "Unknown error.", joined by "; ". */
  function JoinErrors(content: seq<ErrorEntry>): string {
    Join("; ", seq(|content|, k requires 0 <= k < |content| => MessageOf(content[k])))
  }

  /** No entry is dropped: each message occurs in the joined text, and the text grows
      by exactly "; " and the new message per further entry. */
  lemma JoinErrorsKeepsEveryMessage(content: seq<ErrorEntry>, e: ErrorEntry)
    ensures forall k :: 0 <= k < |content| ==> Occurs(MessageOf(content[k]), JoinErrors(content))
    ensures JoinErrors([]) == ""
    ensures JoinErrors(content + [e]) ==
              if |content| == 0 then MessageOf(e) else JoinErrors(content) + "; " + MessageOf(e)
  {
    var msgs := seq(|content|, k requires 0 <= k < |content| => MessageOf(content[k]));
    forall k | 0 <= k < |content|
      ensures Occurs(MessageOf(content[k]), JoinErrors(content))
    {
      JoinContainsEach("; ", msgs, k);
    }
    var more := content + [e];
    assert seq(|more|, k requires 0 <= k < |more| => MessageOf(more[k])) == msgs + [MessageOf(e)];
    JoinSnoc("; ", msgs, MessageOf(e));
  }

  /** `join_errors` as written: it builds the joined text but has no `return`, so it yields None. */
  function JoinErrorsAsWritten(content: seq<ErrorEntry>): (r: Option<string>)
  {
    None
  }

  /** `_raise_cumulusci_exception` as written: `CumulusCIException(None)`, whose message prints as "None". */
  function RaiseAsWritten(content: seq<ErrorEntry>): TaskError {
    match JoinErrorsAsWritten(content)
    case Some(m) => CumulusCIException(m)
    case None => CumulusCIException("None")
  }

  /** `_raise_cumulusci_exception` as intended: the joined messages become the exception's message. */
  function RaiseFor(content: seq<ErrorEntry>): TaskError {
    CumulusCIException(JoinErrors(content))
  }

  /** Which `join_errors` a run raises with: the code as written, or the intended join. */
  datatype JoinVersion = AsWritten | AsIntended

  /** `_raise_cumulusci_exception` under either version of `join_errors`. */
  function Raise(v: JoinVersion, content: seq<ErrorEntry>): TaskError {
    if v == AsWritten then RaiseAsWritten(content) else RaiseFor(content)
  }

  /** The discarded result loses the platform's explanation: for a rejection saying
      "INVALID_FIELD", the as-written exception's message does not mention it. */
  lemma JoinErrorsDiscardsMessages()
    ensures var content := [ErrorEntry(Some("INVALID_FIELD"))];
            && RaiseAsWritten(content) == CumulusCIException("None")
            && !Occurs("INVALID_FIELD", RaiseAsWritten(content).message)
            && RaiseFor(content) == CumulusCIException("INVALID_FIELD")
  {
    var content := [ErrorEntry(Some("INVALID_FIELD"))];
    var msgs := seq(|content|, k requires 0 <= k < |content| => MessageOf(content[k]));
    assert msgs == ["INVALID_FIELD"];
  }

  // ---------------------------------------------------------------------------
  // `_get_user_fields` and `_get_query`
  // ---------------------------------------------------------------------------

  /** The dictionary `_get_user_fields` builds: fields keyed by name, a later field
      replacing an earlier one of the same name. */
  function FieldMap(fields: seq<Field>): map<string, Field>
  {
    if |fields| == 0 then map[]
    else FieldMap(fields[..|fields| - 1])[fields[|fields| - 1].name := fields[|fields| - 1]]
  }

  /** A name is a key exactly when some field has it, and its entry is the last such field. */
  lemma {:induction false} FieldMapLastWins(fields: seq<Field>, n: string)
    ensures n in FieldMap(fields) <==> exists i :: 0 <= i < |fields| && fields[i].name == n
    ensures n in FieldMap(fields) ==>
              exists i :: 0 <= i < |fields| && FieldMap(fields)[n] == fields[i]
                          && forall j :: i < j < |fields| ==> fields[j].name != n
  {
    if |fields| > 0 {
      var init := fields[..|fields| - 1];
      var last := fields[|fields| - 1];
      FieldMapLastWins(init, n);
      if last.name != n {
        if n in FieldMap(init) {
          var i :| 0 <= i < |init| && FieldMap(init)[n] == init[i]
                   && forall j :: i < j < |init| ==> init[j].name != n;
          assert fields[i] == init[i];
        }
        if exists i :: 0 <= i < |fields| && fields[i].name == n {
          var i :| 0 <= i < |fields| && fields[i].name == n;
          assert init[i] == fields[i];
        }
      } else {
        assert fields[|fields| - 1].name == n;
      }
    }
  }

  /** The loop of `_get_user_fields` over the described fields. */
  method FieldsByName(fields: seq<Field>) returns (m: map<string, Field>)
    ensures m == FieldMap(fields)
  {
    m := map[];
    for i := 0 to |fields|
      invariant m == FieldMap(fields[..i])
    {
      assert fields[..i + 1][..i] == fields[..i];
      m := m[fields[i].name := fields[i]];
    }
    assert fields[..|fields|] == fields;
  }

  /** The soap types whose values are quoted in a query. */
  const StringSoapTypes: set<string> := {"xsd:string", "tns:ID", "urn:address"}

  const UserQueryPrefix: string := "SELECT Id FROM User WHERE "

  /** One filter clause of `_get_query`. */
  function Clause(name: string, value: string, soapType: string): string {
    if soapType in StringSoapTypes then name + " = '" + value + "'" else name + " = " + value
  }

  /** A clause is quoted exactly when the field's soap type is string-like. */
  lemma ClauseQuotedExactlyForStrings(name: string, value: string, soapType: string)
    ensures Clause(name, value, soapType) == name + " = '" + value + "'" <==> soapType in StringSoapTypes
    ensures Clause(name, value, soapType) == name + " = " + value <==> soapType !in StringSoapTypes
  {
    if soapType !in StringSoapTypes {
      assert |Clause(name, value, soapType)| != |name + " = '" + value + "'"|;
    } else {
      assert |Clause(name, value, soapType)| != |name + " = " + value|;
    }
  }

  predicate Filterable(userFields: map<string, Field>, name: string) {
    name in userFields && userFields[name].filterable
  }

  /** The exception `_get_query` raises for a filter it cannot use. */
  const FieldErrorPrefix: string := "User Field \""
  const NotFoundSuffix: string := "\" referenced in \"filters\" option is not found.  Fields are case-sensitive."
  const NotFilterableSuffix: string := "\" referenced in \"filters\" option must be filterable."

  function FieldError(userFields: map<string, Field>, name: string): TaskError {
    if name !in userFields then CumulusCIException(FieldErrorPrefix + name + NotFoundSuffix)
    else CumulusCIException(FieldErrorPrefix + name + NotFilterableSuffix)
  }

  /** The clauses of usable filters, one per filter, in the filters' order. */
  function Clauses(userFields: map<string, Field>, filters: seq<Filter>): (cs: seq<string>)
    requires forall k :: 0 <= k < |filters| ==> Filterable(userFields, filters[k].name)
    ensures |cs| == |filters|
    ensures forall k :: 0 <= k < |filters| ==>
              Filterable(userFields, filters[k].name)
              && cs[k] == Clause(filters[k].name, filters[k].value, userFields[filters[k].name].soapType)
  {
    if |filters| == 0 then []
    else
      var last := filters[|filters| - 1];
      assert Filterable(userFields, last.name);
      Clauses(userFields, filters[..|filters| - 1]) + [Clause(last.name, last.value, userFields[last.name].soapType)]
  }

  /** What `_get_query` promises: it fails exactly when some filter names a field that
      is missing (an exact, case-sensitive key) or not filterable, with the message for
      the first such filter; otherwise the query is the prefix followed by every
      clause joined by " AND ". */
  ghost predicate QueryOutcome(userFields: map<string, Field>, filters: seq<Filter>, r: Result<string, TaskError>)
  {
    && (r.Success? <==> forall k :: 0 <= k < |filters| ==> Filterable(userFields, filters[k].name))
    && (r.Failure? ==>
          exists k :: 0 <= k < |filters|
                      && !Filterable(userFields, filters[k].name)
                      && (forall j :: 0 <= j < k ==> Filterable(userFields, filters[j].name))
                      && r.error == FieldError(userFields, filters[k].name))
    && (r.Success? && (forall k :: 0 <= k < |filters| ==> Filterable(userFields, filters[k].name)) ==>
          r.value == UserQueryPrefix + Join(" AND ", Clauses(userFields, filters)))
  }

  lemma FirstUnusableFilterFails(userFields: map<string, Field>, filters: seq<Filter>, i: nat)
    requires i < |filters| && !Filterable(userFields, filters[i].name)
    requires forall j :: 0 <= j < i ==> Filterable(userFields, filters[j].name)
    ensures QueryOutcome(userFields, filters, Failure(FieldError(userFields, filters[i].name)))
  {
    assert !(forall k :: 0 <= k < |filters| ==> Filterable(userFields, filters[k].name));
  }

  lemma AllUsableFiltersSucceed(userFields: map<string, Field>, filters: seq<Filter>)
    requires forall k :: 0 <= k < |filters| ==> Filterable(userFields, filters[k].name)
    ensures QueryOutcome(userFields, filters, Success(UserQueryPrefix + Join(" AND ", Clauses(userFields, filters))))
  {
  }

  /** The loop of `_get_query` over the filters, with the fields already described. */
  method BuildFilterQuery(userFields: map<string, Field>, filters: seq<Filter>) returns (r: Result<string, TaskError>)
    ensures QueryOutcome(userFields, filters, r)
  {
    var clauses: seq<string> := [];
    for i := 0 to |filters|
      invariant forall j :: 0 <= j < i ==> Filterable(userFields, filters[j].name)
      invariant clauses == Clauses(userFields, filters[..i])
    {
      var name := filters[i].name;
      if name !in userFields || !userFields[name].filterable {
        FirstUnusableFilterFails(userFields, filters, i);
        return Failure(FieldError(userFields, name));
      }
      var field := userFields[name];
      assert filters[..i + 1][..i] == filters[..i];
      clauses := clauses + [Clause(name, filters[i].value, field.soapType)];
    }
    assert filters[..|filters|] == filters;
    AllUsableFiltersSucceed(userFields, filters);
    r := Success(UserQueryPrefix + Join(" AND ", clauses));
  }

  // ---------------------------------------------------------------------------
  // `_get_user_id_by_query` and `get_default_user_id`
  // ---------------------------------------------------------------------------

  /** ASCII lower case, enough for matching the letters of "WHERE" case-insensitively. */
  function Lower(c: char): char {
    if 'A' <= c <= 'Z' then (c as int + 32) as char else c
  }

  /** The five characters spell "WHERE" in any mix of cases. */
  predicate IsWhereKeyword(s: string) {
    |s| == 5 && forall k :: 0 <= k < 5 ==> Lower(s[k]) == "where"[k]
  }

  /** `re.sub(r"^WHERE ?", "", where, flags=re.I)`: one leading "WHERE" in any case,
      and one space after it if there is one, are removed. */
  function StripWherePrefix(w: string): (r: string)
    ensures |r| <= |w| && w == w[..|w| - |r|] + r
  {
    if |w| >= 5 && IsWhereKeyword(w[..5]) then
      if |w| >= 6 && w[5] == ' ' then w[6..] else w[5..]
    else w
  }

  /** The query `_get_user_id_by_query` sends. */
  function UserQuery(where: string): string {
    UserQueryPrefix + StripWherePrefix(where)
  }

  /** At most one keyword goes: "WHERE " (any case) before a clause is removed, and a
      second "WHERE" behind it is left alone. */
  lemma StripWhereOnce(keyword: string, clause: string)
    requires IsWhereKeyword(keyword)
    ensures StripWherePrefix(keyword + " " + clause) == clause
    ensures |clause| == 0 || clause[0] != ' ' ==> StripWherePrefix(keyword + clause) == clause
  {
    assert (keyword + " " + clause)[..5] == keyword;
    assert (keyword + clause)[..5] == keyword;
  }

  /** A clause that does not start with the keyword is sent unchanged. */
  lemma StripWhereLeavesPlainClause(clause: string)
    requires !(|clause| >= 5 && IsWhereKeyword(clause[..5]))
    ensures UserQuery(clause) == UserQueryPrefix + clause
  {
  }

  /** The ids of the rows, in the rows' order. */
  function IdsOf(records: seq<UserRecord>): seq<string>
  {
    seq(|records|, k requires 0 <= k < |records| => records[k].id)
  }

  /** The exactly-one check of `_get_user_id_by_query`. */
  function SingleUser(ids: seq<string>): (r: Result<string, TaskError>)
    ensures r.Success? <==> |ids| == 1
    ensures r.Success? ==> r.value == ids[0]
    ensures |ids| == 0 ==> r == Failure(CumulusCIException(NoUsersMessage))
    ensures |ids| > 1 ==> r == Failure(CumulusCIException(AmbiguityMessage(NatToString(|ids|), ids)))
  {
    if |ids| < 1 then Failure(CumulusCIException(NoUsersMessage))
    else if 1 < |ids| then Failure(CumulusCIException(AmbiguityMessage(NatToString(|ids|), ids)))
    else Success(ids[0])
  }

  /** With several matches the failure names how many there are and every one of them. */
  lemma SingleUserNamesEveryMatch(ids: seq<string>)
    requires |ids| > 1
    ensures SingleUser(ids).Failure? && SingleUser(ids).error.CumulusCIException?
    ensures Occurs(NatToString(|ids|), SingleUser(ids).error.message)
    ensures forall k :: 0 <= k < |ids| ==> Occurs(ids[k], SingleUser(ids).error.message)
  {
    AmbiguityMessageNamesAll(NatToString(|ids|), ids);
  }

  /** The message for several matching Users: their number, then their ids. */
  function AmbiguityMessage(count: string, ids: seq<string>): string {
    "More than one User found (" + count + "): " + Join(", ", ids)
  }

  lemma AmbiguityMessageNamesAll(count: string, ids: seq<string>)
    ensures Occurs(count, AmbiguityMessage(count, ids))
    ensures forall k :: 0 <= k < |ids| ==> Occurs(ids[k], AmbiguityMessage(count, ids))
  {
    var prefix := "More than one User found (";
    var listed := Join(", ", ids);
    var head := prefix + count + "): ";
    var rest := "): " + listed;
    assert AmbiguityMessage(count, ids) == prefix + (count + rest);
    OccursAsPrefix(count, rest);
    OccursInSuffix(count, prefix, count + rest);
    forall k | 0 <= k < |ids|
      ensures Occurs(ids[k], AmbiguityMessage(count, ids))
    {
      JoinContainsEach(", ", ids, k);
      OccursInSuffix(ids[k], head, listed);
    }
  }

  /** The loop of `_get_user_id_by_query` over the rows, then the exactly-one check. */
  method UserIdFromRecords(records: seq<UserRecord>) returns (r: Result<string, TaskError>)
    ensures r == SingleUser(IdsOf(records))
  {
    var userIds: seq<string> := [];
    for i := 0 to |records|
      invariant userIds == IdsOf(records[..i])
    {
      userIds := userIds + [records[i].id];
    }
    assert records[..|records|] == records;
    if |userIds| < 1 {
      return Failure(CumulusCIException(NoUsersMessage));
    }
    if 1 < |userIds| {
      return Failure(CumulusCIException(AmbiguityMessage(NatToString(|userIds|), userIds)));
    }
    r := Success(userIds[0]);
  }

  /** `get_default_user_id`: the last 18 characters of the identity reference. */
  function DefaultUserId(identity: string): (id: string)
    ensures |identity| >= 18 ==> |id| == 18
    ensures |identity| < 18 ==> id == identity
    ensures identity == identity[..|identity| - |id|] + id
  {
    LastN(identity, 18)
  }

  // ---------------------------------------------------------------------------
  // The call sequences, as functions of the platform's answers
  // ---------------------------------------------------------------------------

  /** The calls one step makes and what it returns. */
  datatype Run<T> = Run(calls: seq<Call>, result: Result<T, TaskError>)

  const DocumentQueryPrefix: string := "SELECT Id, ContentDocumentId FROM ContentVersion WHERE Id = '"

  function DocumentQuery(contentVersionId: string): string {
    DocumentQueryPrefix + contentVersionId + "'"
  }

  const ProfilesEndpoint: string := "connect/user-profiles/"

  function PhotoEndpoint(userId: string): string {
    ProfilesEndpoint + userId + "/photo"
  }

  /** `self.options.get("where")` is truthy. */
  predicate HasWhere(where: Option<string>) {
    where.Some? && where.value != ""
  }

  function QueryUserRun(v: JoinVersion, b: Responses, where: string): Run<string> {
    var call := QueryAll(UserQuery(where));
    match b.queryAll
    case Failure(Malformed(content)) => Run([call], Failure(Raise(v, content)))
    case Failure(e) => Run([call], Failure(Uncaught(e)))
    case Success(records) => Run([call], SingleUser(IdsOf(records)))
  }

  function DefaultUserRun(b: Responses): Run<string> {
    match b.identity
    case Failure(e) => Run([GetIdentity], Failure(Uncaught(e)))
    case Success(identity) => Run([GetIdentity], Success(DefaultUserId(identity)))
  }

  /** The user lookup of `_run_task`: by query when a `where` is given, else the caller's identity. */
  function ResolveUserRun(v: JoinVersion, b: Responses, where: Option<string>): Run<string> {
    if HasWhere(where) then QueryUserRun(v, b, where.value) else DefaultUserRun(b)
  }

  function InsertRun(b: Responses, photo: PhotoFile): Run<string> {
    if !photo.present then Run([], Failure(CumulusCIException(NoPhotoPrefix + photo.path)))
    else
      var create := CreateContentVersion(photo.name, photo.stem, photo.encoded);
      match b.create
      case Failure(e) => Run([create], Failure(Uncaught(e)))
      case Success(created) =>
        if !created.success then
          Run([create], Failure(CumulusCIException(CreateFailedPrefix + created.errors)))
        else
          var query := Query(DocumentQuery(created.id));
          match b.documentQuery
          case Failure(e) => Run([create, query], Failure(Uncaught(e)))
          case Success(documentIds) =>
            if |documentIds| == 0 then Run([create, query], Failure(IndexError))
            else Run([create, query], Success(documentIds[0]))
  }

  /** The link call of `_run_task` and its compensation. */
  function LinkRun(v: JoinVersion, b: Responses, userId: string, documentId: string): Run<()> {
    var post := PostProfilePhoto(PhotoEndpoint(userId), documentId);
    match b.postPhoto
    case None => Run([post], Success(()))
    case Some(Malformed(content)) =>
      var delete := DeleteContentDocument(documentId);
      if b.delete.Some? then Run([post, delete], Failure(Uncaught(b.delete.value)))
      else Run([post, delete], Failure(Raise(v, content)))
    case Some(e) => Run([post], Failure(Uncaught(e)))
  }

  function UploadRun(v: JoinVersion, b: Responses, where: Option<string>, photo: PhotoFile): Run<()> {
    var user := ResolveUserRun(v, b, where);
    if user.result.Failure? then Run(user.calls, Failure(user.result.error))
    else
      var doc := InsertRun(b, photo);
      if doc.result.Failure? then Run(user.calls + doc.calls, Failure(doc.result.error))
      else
        var link := LinkRun(v, b, user.result.value, doc.result.value);
        Run(user.calls + doc.calls + link.calls, link.result)
  }

  /** `_run_task` as written: with no `where` it calls `_get_default_user_id`, a name
      the file does not define (it defines `get_default_user_id`); with a `where`, its
      malformed-request rejections raise through the `join_errors` that returns None. */
  function UploadRunAsWritten(b: Responses, where: Option<string>, photo: PhotoFile): Run<()> {
    if HasWhere(where) then UploadRun(AsWritten, b, where, photo)
    else Run([], Failure(AttributeError("_get_default_user_id")))
  }

  // ---------------------------------------------------------------------------
  // Properties of the call sequences
  // ---------------------------------------------------------------------------

  /** The number of deletes in a call sequence. */
  function Deletes(calls: seq<Call>): nat {
    if |calls| == 0 then 0
    else (if calls[0].DeleteContentDocument? then 1 else 0) + Deletes(calls[1..])
  }

  lemma {:induction false} DeletesAppend(a: seq<Call>, c: seq<Call>)
    ensures Deletes(a + c) == Deletes(a) + Deletes(c)
  {
    if |a| > 0 {
      assert (a + c)[1..] == a[1..] + c;
      DeletesAppend(a[1..], c);
    } else {
      assert a + c == c;
    }
  }

  lemma CallsAppend(a: seq<Call>, b: seq<Call>, c: seq<Call>, d: seq<Call>)
    ensures a + b + c + d == a + (b + c + d)
    ensures a + b + c == a + (b + c)
  {
  }

  lemma DeletesOfPair(c: Call, d: Call)
    ensures Deletes([c]) == if c.DeleteContentDocument? then 1 else 0
    ensures Deletes([c, d]) == Deletes([c]) + Deletes([d])
  {
    assert [c][1..] == [];
    assert [c, d][1..] == [d];
    assert [d][1..] == [];
  }

  lemma NoDeletesBeforeLink(v: JoinVersion, b: Responses, where: Option<string>, photo: PhotoFile)
    ensures Deletes(ResolveUserRun(v, b, where).calls) == 0
    ensures Deletes(InsertRun(b, photo).calls) == 0
  {
    var create := CreateContentVersion(photo.name, photo.stem, photo.encoded);
    DeletesOfPair(ResolveUserRun(v, b, where).calls[0], create);
    var query := Query(DocumentQuery(if b.create.Success? then b.create.value.id else ""));
    DeletesOfPair(create, query);
  }

  /** The link step deletes once exactly when the platform rejects the link as malformed. */
  lemma LinkDeletes(v: JoinVersion, b: Responses, userId: string, documentId: string)
    ensures Deletes(LinkRun(v, b, userId, documentId).calls) ==
              if b.postPhoto.Some? && b.postPhoto.value.Malformed? then 1 else 0
  {
    DeletesOfPair(PostProfilePhoto(PhotoEndpoint(userId), documentId), DeleteContentDocument(documentId));
  }

  /** The user was resolved, the document created, and the link rejected as malformed. */
  predicate LinkRejected(v: JoinVersion, b: Responses, where: Option<string>, photo: PhotoFile) {
    && ResolveUserRun(v, b, where).result.Success?
    && InsertRun(b, photo).result.Success?
    && b.postPhoto.Some? && b.postPhoto.value.Malformed?
  }

  /** `_delete_content_document` runs once when the link is rejected and never otherwise. */
  lemma DeletesExactlyOnRejectedLink(v: JoinVersion, b: Responses, where: Option<string>, photo: PhotoFile)
    ensures Deletes(UploadRun(v, b, where, photo).calls) == if LinkRejected(v, b, where, photo) then 1 else 0
  {
    var user := ResolveUserRun(v, b, where);
    var doc := InsertRun(b, photo);
    NoDeletesBeforeLink(v, b, where, photo);
    DeletesAppend(user.calls, doc.calls);
    if user.result.Success? && doc.result.Success? {
      LinkDeletes(v, b, user.result.value, doc.result.value);
      DeletesAppend(user.calls + doc.calls, LinkRun(v, b, user.result.value, doc.result.value).calls);
    }
  }

  /** The user is looked up before anything else, by one query or one identity call. */
  lemma UserLookupComesFirst(v: JoinVersion, b: Responses, where: Option<string>, photo: PhotoFile)
    ensures var calls := UploadRun(v, b, where, photo).calls;
            && |calls| >= 1
            && calls[0] == (if HasWhere(where) then QueryAll(UserQuery(where.value)) else GetIdentity)
  {
  }

  /** A missing photo stops `_insert_content_document` before any platform call,
      so no ContentVersion is created. */
  lemma MissingPhotoCreatesNothing(v: JoinVersion, b: Responses, where: Option<string>, photo: PhotoFile)
    requires !photo.present
    ensures InsertRun(b, photo) == Run([], Failure(CumulusCIException(NoPhotoPrefix + photo.path)))
    ensures UploadRun(v, b, where, photo).calls == ResolveUserRun(v, b, where).calls
    ensures UploadRun(v, b, where, photo).result.Failure?
    ensures forall k :: 0 <= k < |UploadRun(v, b, where, photo).calls| ==>
              !UploadRun(v, b, where, photo).calls[k].CreateContentVersion?
  {
    assert ResolveUserRun(v, b, where).calls + [] == ResolveUserRun(v, b, where).calls;
  }

  /** A create answered with `success = false` fails the upload with the platform's
      errors, and the document id is never queried. */
  lemma FailedCreateSkipsDocumentQuery(b: Responses, photo: PhotoFile)
    requires photo.present && b.create.Success? && !b.create.value.success
    ensures InsertRun(b, photo).calls == [CreateContentVersion(photo.name, photo.stem, photo.encoded)]
    ensures InsertRun(b, photo).result ==
              Failure(CumulusCIException(CreateFailedPrefix + b.create.value.errors))
  {
  }

  /** The upload succeeds only through `PostProfilePhoto` of the created document,
      and then nothing is deleted. */
  lemma SuccessDeletesNothing(v: JoinVersion, b: Responses, where: Option<string>, photo: PhotoFile)
    requires UploadRun(v, b, where, photo).result.Success?
    ensures Deletes(UploadRun(v, b, where, photo).calls) == 0
    ensures var user := ResolveUserRun(v, b, where);
            var doc := InsertRun(b, photo);
            && user.result.Success? && doc.result.Success?
            && UploadRun(v, b, where, photo).calls
               == user.calls + doc.calls + [PostProfilePhoto(PhotoEndpoint(user.result.value), doc.result.value)]
  {
    DeletesExactlyOnRejectedLink(v, b, where, photo);
  }

  /** A rejected link is followed by exactly one delete, of the created document,
      as the very last call; then the run fails with the joined rejection messages,
      or with the delete's own error when the delete fails too. */
  lemma RejectedLinkDeletesOnce(v: JoinVersion, b: Responses, where: Option<string>, photo: PhotoFile)
    requires ResolveUserRun(v, b, where).result.Success? && InsertRun(b, photo).result.Success?
    requires b.postPhoto.Some? && b.postPhoto.value.Malformed?
    ensures var user := ResolveUserRun(v, b, where);
            var doc := InsertRun(b, photo);
            var run := UploadRun(v, b, where, photo);
            && run.calls == user.calls + doc.calls
                            + [PostProfilePhoto(PhotoEndpoint(user.result.value), doc.result.value),
                               DeleteContentDocument(doc.result.value)]
            && Deletes(run.calls) == 1
            && run.result == if b.delete.Some? then Failure(Uncaught(b.delete.value))
                             else Failure(Raise(v, b.postPhoto.value.content))
  {
    DeletesExactlyOnRejectedLink(v, b, where, photo);
  }

  /** As written, the run without `where` stops at the missing method before any
      platform call and never uploads. */
  lemma DefaultUserPathFailsAsWritten(b: Responses, where: Option<string>, photo: PhotoFile)
    requires !HasWhere(where)
    ensures UploadRunAsWritten(b, where, photo) == Run([], Failure(AttributeError("_get_default_user_id")))
  {
  }

  /** As written, a malformed-request rejection of the user query or of the link makes
      the run fail with an exception reading "None", whatever the platform said. */
  lemma RejectionsReadNoneAsWritten(b: Responses, where: Option<string>, photo: PhotoFile)
    requires HasWhere(where)
    ensures b.queryAll.Failure? && b.queryAll.error.Malformed? ==>
              UploadRunAsWritten(b, where, photo)
              == Run([QueryAll(UserQuery(where.value))], Failure(CumulusCIException("None")))
    ensures LinkRejected(AsWritten, b, where, photo) && b.delete.None? ==>
              UploadRunAsWritten(b, where, photo).result == Failure(CumulusCIException("None"))
  {
  }

  /** As intended, the run without `where` takes the caller's identity as the user:
      one identity call, then the upload for the last 18 characters of it. */
  lemma DefaultUserPathUsesIdentity(v: JoinVersion, b: Responses, where: Option<string>, photo: PhotoFile)
    requires !HasWhere(where)
    ensures b.identity.Failure? ==>
              UploadRun(v, b, where, photo) == Run([GetIdentity], Failure(Uncaught(b.identity.error)))
    ensures b.identity.Success? ==>
              ResolveUserRun(v, b, where) == Run([GetIdentity], Success(DefaultUserId(b.identity.value)))
    ensures var doc := InsertRun(b, photo);
            b.identity.Success? && doc.result.Success? ==>
              UploadRun(v, b, where, photo) ==
                var link := LinkRun(v, b, DefaultUserId(b.identity.value), doc.result.value);
                Run([GetIdentity] + doc.calls + link.calls, link.result)
  {
  }

  // ---------------------------------------------------------------------------
  // The platform client and the UploadProfilePhoto class
  // ---------------------------------------------------------------------------

  /** The platform client: it answers each call from `responses` and records it in `log`. */
  class Platform {
    var log: seq<Call>
    const responses: Responses

    constructor (responses: Responses)
      ensures log == [] && this.responses == responses
    {
      log := [];
      this.responses := responses;
    }

    method DescribeUserFields() returns (r: Result<seq<Field>, PlatformError>)
      modifies this
      ensures log == old(log) + [DescribeUser] && r == responses.userFields
    {
      log := log + [DescribeUser];
      r := responses.userFields;
    }

    method Identity() returns (r: Result<string, PlatformError>)
      modifies this
      ensures log == old(log) + [GetIdentity] && r == responses.identity
    {
      log := log + [GetIdentity];
      r := responses.identity;
    }

    method QueryAllUsers(soql: string) returns (r: Result<seq<UserRecord>, PlatformError>)
      modifies this
      ensures log == old(log) + [QueryAll(soql)] && r == responses.queryAll
    {
      log := log + [QueryAll(soql)];
      r := responses.queryAll;
    }

    method CreateVersion(pathOnClient: string, title: string, versionData: string)
      returns (r: Result<CreateResult, PlatformError>)
      modifies this
      ensures log == old(log) + [CreateContentVersion(pathOnClient, title, versionData)]
      ensures r == responses.create
    {
      log := log + [CreateContentVersion(pathOnClient, title, versionData)];
      r := responses.create;
    }

    method QueryDocumentIds(soql: string) returns (r: Result<seq<string>, PlatformError>)
      modifies this
      ensures log == old(log) + [Query(soql)] && r == responses.documentQuery
    {
      log := log + [Query(soql)];
      r := responses.documentQuery;
    }

    method PostPhoto(endpoint: string, fileId: string) returns (r: Option<PlatformError>)
      modifies this
      ensures log == old(log) + [PostProfilePhoto(endpoint, fileId)] && r == responses.postPhoto
    {
      log := log + [PostProfilePhoto(endpoint, fileId)];
      r := responses.postPhoto;
    }

    method DeleteDocument(id: string) returns (r: Option<PlatformError>)
      modifies this
      ensures log == old(log) + [DeleteContentDocument(id)] && r == responses.delete
    {
      log := log + [DeleteContentDocument(id)];
      r := responses.delete;
    }
  }

  class UploadProfilePhoto {
    const sf: Platform
    /** The `where` option, if given. */
    const where: Option<string>
    /** The `photo` option. */
    const photo: PhotoFile

    constructor (sf: Platform, where: Option<string>, photo: PhotoFile)
      ensures this.sf == sf && this.where == where && this.photo == photo
    {
      this.sf := sf;
      this.where := where;
      this.photo := photo;
    }

    /** `_get_user_fields`: one describe call, then the fields keyed by name; a failing
        describe propagates. */
    method GetUserFields() returns (r: Result<map<string, Field>, TaskError>)
      modifies sf
      ensures sf.log == old(sf.log) + [DescribeUser]
      ensures sf.responses.userFields.Failure? ==> r == Failure(Uncaught(sf.responses.userFields.error))
      ensures sf.responses.userFields.Success? ==> r == Success(FieldMap(sf.responses.userFields.value))
    {
      var described := sf.DescribeUserFields();
      if described.Failure? {
        return Failure(Uncaught(described.error));
      }
      var m := FieldsByName(described.value);
      r := Success(m);
    }

    /** `_get_query`: describe the User fields, validate the filters, build the query. */
    method GetQuery(filters: seq<Filter>) returns (r: Result<string, TaskError>)
      modifies sf
      ensures sf.log == old(sf.log) + [DescribeUser]
      ensures sf.responses.userFields.Failure? ==> r == Failure(Uncaught(sf.responses.userFields.error))
      ensures sf.responses.userFields.Success? ==>
                QueryOutcome(FieldMap(sf.responses.userFields.value), filters, r)
    {
      var userFields := GetUserFields();
      if userFields.Failure? {
        return Failure(userFields.error);
      }
      r := BuildFilterQuery(userFields.value, filters);
    }

    /** `_get_user_id_by_query`. */
    method GetUserIdByQuery(where: string) returns (r: Result<string, TaskError>)
      modifies sf
      ensures sf.log == old(sf.log) + QueryUserRun(AsIntended, sf.responses, where).calls
      ensures r == QueryUserRun(AsIntended, sf.responses, where).result
    {
      var query := UserQuery(where);
      var response := sf.QueryAllUsers(query);
      match response
      case Failure(Malformed(content)) =>
        r := Failure(RaiseFor(content));
      case Failure(e) =>
        r := Failure(Uncaught(e));
      case Success(records) =>
        r := UserIdFromRecords(records);
    }

    /** `get_default_user_id`. */
    method GetDefaultUserId() returns (r: Result<string, TaskError>)
      modifies sf
      ensures sf.log == old(sf.log) + DefaultUserRun(sf.responses).calls
      ensures r == DefaultUserRun(sf.responses).result
    {
      var identity := sf.Identity();
      if identity.Failure? {
        return Failure(Uncaught(identity.error));
      }
      r := Success(LastN(identity.value, 18));
    }

    /** `_insert_content_document`: check the path, create the ContentVersion, check
        its success flag, look up its ContentDocument id. */
    method InsertContentDocument() returns (r: Result<string, TaskError>)
      modifies sf
      ensures sf.log == old(sf.log) + InsertRun(sf.responses, photo).calls
      ensures r == InsertRun(sf.responses, photo).result
    {
      if !photo.present {
        return Failure(CumulusCIException(NoPhotoPrefix + photo.path));
      }
      var created := sf.CreateVersion(photo.name, photo.stem, photo.encoded);
      if created.Failure? {
        return Failure(Uncaught(created.error));
      }
      if !created.value.success {
        return Failure(CumulusCIException(CreateFailedPrefix + created.value.errors));
      }
      var found := sf.QueryDocumentIds(DocumentQuery(created.value.id));
      if found.Failure? {
        return Failure(Uncaught(found.error));
      }
      if |found.value| == 0 {
        return Failure(IndexError);
      }
      r := Success(found.value[0]);
    }

    /** `_delete_content_document`. */
    method DeleteContentDocumentById(documentId: string) returns (r: Option<PlatformError>)
      modifies sf
      ensures sf.log == old(sf.log) + [DeleteContentDocument(documentId)]
      ensures r == sf.responses.delete
    {
      r := sf.DeleteDocument(documentId);
    }

    /** The user lookup that opens `_run_task`, calling `get_default_user_id` when no `where` is given. */
    method ResolveUser() returns (r: Result<string, TaskError>)
      modifies sf
      ensures sf.log == old(sf.log) + ResolveUserRun(AsIntended, sf.responses, where).calls
      ensures r == ResolveUserRun(AsIntended, sf.responses, where).result
    {
      if HasWhere(where) {
        r := GetUserIdByQuery(where.value);
      } else {
        r := GetDefaultUserId();
      }
    }

    /** The link that closes `_run_task`, deleting the document when the platform rejects it. */
    method LinkPhoto(userId: string, documentId: string) returns (r: Result<(), TaskError>)
      modifies sf
      ensures sf.log == old(sf.log) + LinkRun(AsIntended, sf.responses, userId, documentId).calls
      ensures r == LinkRun(AsIntended, sf.responses, userId, documentId).result
    {
      var linked := sf.PostPhoto(PhotoEndpoint(userId), documentId);
      match linked
      case None =>
        r := Success(());
      case Some(Malformed(content)) =>
        var deleted := DeleteContentDocumentById(documentId);
        if deleted.Some? {
          return Failure(Uncaught(deleted.value));
        }
        r := Failure(RaiseFor(content));
      case Some(e) =>
        r := Failure(Uncaught(e));
    }

    /** `_run_task`, with the default-user path calling `get_default_user_id`. */
    method RunTask() returns (r: Result<(), TaskError>)
      modifies sf
      ensures sf.log == old(sf.log) + UploadRun(AsIntended, sf.responses, where, photo).calls
      ensures r == UploadRun(AsIntended, sf.responses, where, photo).result
    {
      ghost var start := sf.log;
      ghost var lookup := ResolveUserRun(AsIntended, sf.responses, where);
      ghost var insert := InsertRun(sf.responses, photo);
      var user := ResolveUser();
      if user.Failure? {
        return Failure(user.error);
      }
      var documentId := InsertContentDocument();
      if documentId.Failure? {
        CallsAppend(start, lookup.calls, insert.calls, []);
        return Failure(documentId.error);
      }
      ghost var link := LinkRun(AsIntended, sf.responses, user.value, documentId.value);
      r := LinkPhoto(user.value, documentId.value);
      CallsAppend(start, lookup.calls, insert.calls, link.calls);
    }
  }
}
