/** The Twitter adapter: one GET of the user-lookup endpoint, whose
    follower count is read out of the JSON body, with `null` for every
    failure. */
module TwitterFollowers {
  import opened JsValues

  /** The account whose followers are counted (the username lookup that
      would find it is disabled, so the id is fixed). */
  const TwitterUserId: string := "955794358242029568"

  /** The URL of the user-lookup request for `userId`. */
  function UserUrl(userId: string): string {
    "https://api.twitter.com/2/users/" + userId
  }

  /** What the request gives: the fetch rejects (network failure), or a
      response with its status and its body parsed as JSON, `None` when the
      body is not JSON and `response.json()` rejects. */
  datatype UserResponse =
    | FetchFailed(message: string)
    | Response(status: int, body: Option<Value>)

  /** Reading property `name` of a JavaScript value: `None` when that throws
      a TypeError (the value is `null` or `undefined`); the property of an
      object, or `undefined` when it has none; `undefined` for any other
      value, which has none of the properties read here. */
  function Member(v: Value, name: string): (r: Option<Value>)
    ensures r.None? <==> v.Null? || v.Undefined?
    ensures v.Object? && name !in v.fields ==> r == Some(Undefined)
  {
    match v
    case Null => None
    case Undefined => None
    case Object(fields) => Some(if name in fields then fields[name] else Undefined)
    case _ => Some(Undefined)
  }

  /** `json.data.public_metrics.followers_count`, `None` when one of the
      reads throws. */
  function FollowersPath(json: Value): (r: Option<Value>)
    ensures r.Some? <==>
              && json.Object? && "data" in json.fields
              && json.fields["data"].Object? && "public_metrics" in json.fields["data"].fields
              && json.fields["data"].fields["public_metrics"] != Null
              && json.fields["data"].fields["public_metrics"] != Undefined
  {
    match Member(json, "data")
    case None => None
    case Some(data) =>
      match Member(data, "public_metrics")
      case None => None
      case Some(metrics) => Member(metrics, "followers_count")
  }

  /** getFollowersCount: `null` when the fetch rejects, the status is not 200,
      the body is not JSON or a read along the path throws; otherwise what the
      path reads, `undefined` included. */
  function FollowersCount(response: UserResponse): (r: Value)
    ensures response.FetchFailed? ==> r == Null
    ensures response.Response? && response.status != 200 ==> r == Null
    ensures response.Response? && response.body.None? ==> r == Null
  {
    match response
    case FetchFailed(_) => Null
    case Response(status, body) =>
      if status != 200 then Null
      else match body
        case None => Null
        case Some(json) =>
          match FollowersPath(json)
          case None => Null
          case Some(count) => count
  }

  /** getTwitterFollowers as the cache's producer: getFollowersCount for the
      fixed account, given what the request to each URL would give. Its own
      catch never fires, since getFollowersCount answers `null` instead of
      throwing, so the producer always resolves. */
  function TwitterFollowers(request: string -> UserResponse): (o: Outcome)
    ensures o.Resolved?
    ensures o.value != Null && o.value != Undefined ==> request(UserUrl(TwitterUserId)).Response?
  {
    Resolved(FollowersCount(request(UserUrl(TwitterUserId))))
  }

  /** The body the API sends for a user with `metrics` as its public
      metrics, extra fields included. */
  predicate HasMetrics(json: Value, metrics: map<string, Value>) {
    && json.Object? && "data" in json.fields
    && var data := json.fields["data"];
    && data.Object? && "public_metrics" in data.fields
    && data.fields["public_metrics"] == Object(metrics)
  }

  /** A count that is neither `null` nor `undefined` comes only from a 200
      response whose JSON body holds a `data.public_metrics` object with a
      `followers_count`, and is that property. */
  lemma CountComesFromMetrics(response: UserResponse)
    requires FollowersCount(response) != Null && FollowersCount(response) != Undefined
    ensures response.Response? && response.status == 200 && response.body.Some?
    ensures exists metrics :: HasMetrics(response.body.value, metrics) &&
              "followers_count" in metrics && FollowersCount(response) == metrics["followers_count"]
  {
    var json := response.body.value;
    var data := Member(json, "data").value;
    var metrics := Member(data, "public_metrics").value;
    assert HasMetrics(json, metrics.fields);
  }

  /** Conversely, a 200 response whose body holds `data.public_metrics`
      gives that object's `followers_count`. */
  lemma MetricsGiveCount(json: Value, metrics: map<string, Value>)
    requires HasMetrics(json, metrics)
    ensures FollowersCount(Response(200, Some(json)))
            == (if "followers_count" in metrics then metrics["followers_count"] else Undefined)
  {
  }

  /** A body without `data` (an error object the API sends with status 200)
      gives `null`, not an error. */
  lemma MissingDataIsNull(fields: map<string, Value>)
    requires "data" !in fields
    ensures FollowersCount(Response(200, Some(Object(fields)))) == Null
  {
  }

  /** A body whose `data` has no `public_metrics` gives `null`: reading
      `followers_count` of `undefined` throws. */
  lemma MissingMetricsIsNull(dataFields: map<string, Value>)
    requires "public_metrics" !in dataFields
    ensures FollowersCount(Response(200, Some(Object(map["data" := Object(dataFields)])))) == Null
  {
  }

  /** The documented body shape gives the count as a number. */
  lemma DocumentedBodyExample(n: int)
    ensures FollowersCount(Response(200, Some(Object(map[
              "data" := Object(map[
                "id" := Str(TwitterUserId),
                "public_metrics" := Object(map["followers_count" := Num(n), "following_count" := Num(0)])])]))))
            == Num(n)
  {
    var metrics := map["followers_count" := Num(n), "following_count" := Num(0)];
    var json := Object(map["data" := Object(map["id" := Str(TwitterUserId), "public_metrics" := Object(metrics)])]);
    MetricsGiveCount(json, metrics);
  }
}
