/** Loading the credential lines and turning one line into an account record
    (`load_queries_from_file` and `parse_query` in bot.py). */
module Credentials {

  import opened Wrappers
  import opened Text
  import Json

  /** What `parse_qs` makes of a query string: each key with the list of its values. */
  type QueryParams = map<string, seq<string>>

  /** `unquote` followed by `json.loads` on the `user` value; `None` when decoding raises. */
  type UserDecoder = string -> Option<Json.Value>

  /** The account record `parse_query` builds. The three identity fields are whatever JSON
      values the `user` object holds under `id`, `username` and `first_name`: `parse_query`
      accepts any JSON value there, although the table only accepts a string or null username. */
  datatype Account = Account(userId: Json.Value, username: Json.Value, firstName: Json.Value, authData: string)

  /** The list comprehension of `load_queries_from_file`: the non-blank lines, stripped, in order. */
  function LoadQueries(lines: seq<string>): (queries: seq<string>)
    ensures |queries| <= |lines|
    ensures forall q :: q in queries ==> !IsBlank(q) && Strip(q) == q
  {
    if lines == [] then []
    else
      StripIdempotent(lines[0]);
      StripEmptyIff(Strip(lines[0]));
      var rest := LoadQueries(lines[1..]);
      if Strip(lines[0]) != [] then [Strip(lines[0])] + rest else rest
  }

  /** `load_queries_from_file`: the file's lines, or `None` when the file does not exist. */
  function LoadQueriesFromFile(file: Option<seq<string>>): (queries: seq<string>)
    ensures file.None? ==> queries == []
    ensures file.Some? ==> |queries| <= |file.value|
  {
    match file
    case None => []
    case Some(lines) => LoadQueries(lines)
  }

  /** Loading distributes over concatenation: each line contributes on its own, in order. */
  lemma {:induction false} LoadQueriesAppend(a: seq<string>, b: seq<string>)
    ensures LoadQueries(a + b) == LoadQueries(a) + LoadQueries(b)
  {
    if a == [] {
      assert a + b == b;
    } else {
      assert (a + b)[1..] == a[1..] + b;
      LoadQueriesAppend(a[1..], b);
    }
  }

  /** One line is kept, stripped, exactly when it is not blank. */
  lemma LoadQueriesLine(line: string)
    ensures LoadQueries([line]) == if IsBlank(line) then [] else [Strip(line)]
  {
    assert [line][1..] == [];
    StripEmptyIff(line);
  }

  /** Loading keeps exactly the non-blank lines, stripped and in their order: the k-th query is
      the stripped k-th non-blank line. */
  lemma LoadQueriesExactly(lines: seq<string>)
    ensures |LoadQueries(lines)| == |NonBlankFrom(lines, 0)|
    ensures forall k :: 0 <= k < |LoadQueries(lines)| ==>
              LoadQueries(lines)[k] == Strip(lines[NonBlankFrom(lines, 0)[k]])
  {
    assert lines[0..] == lines;
    LoadQueriesSuffix(lines, 0);
  }

  lemma {:induction false} LoadQueriesSuffix(lines: seq<string>, from: nat)
    requires from <= |lines|
    ensures |LoadQueries(lines[from..])| == |NonBlankFrom(lines, from)|
    ensures forall k :: 0 <= k < |LoadQueries(lines[from..])| ==>
              LoadQueries(lines[from..])[k] == Strip(lines[NonBlankFrom(lines, from)[k]])
    decreases |lines| - from
  {
    if from < |lines| {
      var queries := LoadQueries(lines[from..]);
      var ix := NonBlankFrom(lines, from);
      var rest := LoadQueries(lines[from + 1..]);
      var restIx := NonBlankFrom(lines, from + 1);
      LoadQueriesSuffix(lines, from + 1);
      LoadQueriesStep(lines, from);
      if !IsBlank(lines[from]) {
        assert queries == [Strip(lines[from])] + rest;
        assert ix == [from] + restIx;
        forall k | 0 <= k < |queries| ensures queries[k] == Strip(lines[ix[k]]) {
          if k > 0 {
            assert queries[k] == rest[k - 1] && ix[k] == restIx[k - 1];
          }
        }
      }
    }
  }

  /** One step of loading: the line at `from` contributes its stripped form unless it is blank. */
  lemma LoadQueriesStep(lines: seq<string>, from: nat)
    requires from < |lines|
    ensures LoadQueries(lines[from..]) ==
            (if IsBlank(lines[from]) then [] else [Strip(lines[from])]) + LoadQueries(lines[from + 1..])
  {
    var suffix := lines[from..];
    assert suffix[0] == lines[from] && suffix[1..] == lines[from + 1..];
    StripEmptyIff(lines[from]);
  }

  /** The positions of the non-blank lines at or after `from`, in increasing order. */
  function NonBlankFrom(lines: seq<string>, from: nat): (ix: seq<nat>)
    requires from <= |lines|
    ensures forall k :: 0 <= k < |ix| ==> from <= ix[k] < |lines|
    decreases |lines| - from
  {
    if from == |lines| then []
    else if IsBlank(lines[from]) then NonBlankFrom(lines, from + 1)
    else [from] + NonBlankFrom(lines, from + 1)
  }

  /** `NonBlankFrom` lists every non-blank position at or after `from`, and only those, in
      increasing order. */
  lemma {:induction false} NonBlankFromExactly(lines: seq<string>, from: nat)
    requires from <= |lines|
    ensures var ix := NonBlankFrom(lines, from);
            && (forall k :: 0 <= k < |ix| ==> !IsBlank(lines[ix[k]]))
            && (forall k, l :: 0 <= k < l < |ix| ==> ix[k] < ix[l])
            && (forall i :: from <= i < |lines| && !IsBlank(lines[i]) ==> i in ix)
    decreases |lines| - from
  {
    if from < |lines| {
      NonBlankFromExactly(lines, from + 1);
    }
  }

  /** The JSON object `parse_query` reads the identity from: the first `user` value, decoded.
      `None` when `user` is absent, carries no value, does not decode, or is not an object
      (indexing any other JSON value by a string raises in Python). */
  function UserObject(params: QueryParams, decodeUser: UserDecoder): Option<map<string, Json.Value>>
  {
    if "user" !in params || params["user"] == [] then None
    else match decodeUser(params["user"][0])
      case Some(JObject(fields)) => Some(fields)
      case _ => None
  }

  /** The identity keys `parse_query` reads from the decoded user object. */
  const IdentityKeys: set<string> := {"id", "username", "first_name"}

  /** `parse_query`: the account the credential line describes, or `None`. Every failure of the
      source (the `query_id` form without `user`, a missing `user` key, a value that does not
      decode, a missing identity field) ends in `None`: nothing is raised. */
  function ParseQuery(query: string, params: QueryParams, decodeUser: UserDecoder): Option<Account>
  {
    if "query_id" in params && "user" !in params then None
    else
      match UserObject(params, decodeUser)
      case None => None
      case Some(user) =>
        if "id" in user && "username" in user && "first_name" in user then
          Some(Account(user["id"], user["username"], user["first_name"], Strip(query)))
        else None
  }

  /** A line parses exactly when its `user` value decodes to an object holding the three identity
      keys; the account then carries the values under those keys and the stripped line. Without a
      `user` key nothing parses, `query_id` or not. */
  lemma ParseQueryMeaning(query: string, params: QueryParams, decodeUser: UserDecoder)
    ensures "user" !in params ==> ParseQuery(query, params, decodeUser).None?
    ensures ParseQuery(query, params, decodeUser).Some? <==>
              UserObject(params, decodeUser).Some? && IdentityKeys <= UserObject(params, decodeUser).value.Keys
    ensures ParseQuery(query, params, decodeUser).Some? ==>
              var fields := UserObject(params, decodeUser).value;
              var account := ParseQuery(query, params, decodeUser).value;
              && account.userId == fields["id"]
              && account.username == fields["username"]
              && account.firstName == fields["first_name"]
              && account.authData == Strip(query)
  {
  }

  /** The `query_id` discriminator changes nothing: with or without it, the same line gives the
      same account or the same failure. */
  lemma ParseQueryIgnoresQueryId(query: string, params: QueryParams, decodeUser: UserDecoder)
    ensures ParseQuery(query, params, decodeUser) == ParseQuery(query, params - {"query_id"}, decodeUser)
  {
    var legacy := params - {"query_id"};
    assert "user" in params <==> "user" in legacy;
    if "user" in params {
      assert params["user"] == legacy["user"];
    }
    assert UserObject(params, decodeUser) == UserObject(legacy, decodeUser);
  }

  /** The smallest `user` object that encodes an account: its three identity fields. */
  function UserFields(account: Account): map<string, Json.Value>
  {
    map["id" := account.userId, "username" := account.username, "first_name" := account.firstName]
  }

  /** Round trip: a stripped line whose `user` value decodes to an object holding an account's
      identity fields parses back to that account, whatever other fields and keys are present;
      and every parsed account is recovered this way from its line. */
  lemma ParseQueryRoundTrip(query: string, params: QueryParams, decodeUser: UserDecoder, account: Account)
    ensures ParseQuery(query, params, decodeUser) == Some(account) <==>
            && account.authData == Strip(query)
            && UserObject(params, decodeUser).Some?
            && UserFields(account).Items <= UserObject(params, decodeUser).value.Items
  {
    var user := UserObject(params, decodeUser);
    if user.Some? && UserFields(account).Items <= user.value.Items {
      assert ("id", account.userId) in UserFields(account).Items;
      assert ("username", account.username) in UserFields(account).Items;
      assert ("first_name", account.firstName) in UserFields(account).Items;
    }
    if ParseQuery(query, params, decodeUser) == Some(account) {
      var f := user.value;
      forall kv | kv in UserFields(account).Items ensures kv in f.Items {
        assert kv.0 in f;
      }
    }
  }
}
