/**
 * The client object: credentials, the base URL, the retry bound and the current
 * session, with the login, the credential setters, the authenticated dispatch and
 * the commands whose request data has logic of its own.
 *
 * The service is a fixed sequence of answers that every HTTP call, login included,
 * takes from the front; `sent` records every call in order. The session is a
 * generation number: 0 before the first login, bumped by each login.
 */
module QBittorrent {
  import opened Wrappers
  import opened Infohash
  import opened Http
  import opened Dispatch
  import opened Params

  class Client {
    var username: string
    var password: string
    /** The base URL every endpoint is appended to. */
    const url: string
    /** How many times a 403 may be answered with a re-login and a retry (beyond the first). */
    const maxAttempts: int
    /** The JSON parser, partial: None when the text is not JSON. */
    const parse: string -> Option<Json>
    var session: nat
    /** The answers the service still has to give. */
    var replies: seq<Response>
    /** Every HTTP call issued so far, with the session it went out on. */
    var sent: seq<Sent>

    /** Sets up the client's state; the first login is done by `Connect`. */
    constructor (root: string, username: string, password: string,
                 server: seq<Response>, parse: string -> Option<Json>, maxAttempts: int := 3)
      ensures this.username == username && this.password == password
      ensures url == BaseUrl(root) && this.maxAttempts == maxAttempts && this.parse == parse
      ensures session == 0 && replies == server && sent == []
    {
      this.username := username;
      this.password := password;
      url := BaseUrl(root);
      this.maxAttempts := maxAttempts;
      this.parse := parse;
      session := 0;
      replies := server;
      sent := [];
    }

    /** The login POST for the current credentials. */
    function LoginRequest(): (req: HttpRequest)
      reads this
      ensures req.url == url + "auth/login" && req.verb == Post
      ensures req.form == map["username" := Str(username), "password" := Str(password)]
    {
      HttpRequest(url + "auth/login", Post, map["username" := Str(username), "password" := Str(password)], map[])
    }

    /** Issues one HTTP call on the current session and takes the service's next answer, if any. */
    method Transmit(req: HttpRequest) returns (answer: Option<Response>)
      modifies this`replies, this`sent
      ensures answer == Next(old(replies)) && replies == Drop(old(replies))
      ensures sent == old(sent) + [Sent(session, req)]
    {
      sent := sent + [Sent(session, req)];
      if replies == [] {
        answer := None;
      } else {
        answer := Some(replies[0]);
        replies := replies[1..];
      }
    }

    /** A fresh session, one login call on it for the current credentials, and its verdict. */
    twostate predicate Relogged(new err: Option<Error>)
      reads this
    {
      && session == old(session) + 1
      && err == LoginOutcome(Next(old(replies)))
      && replies == Drop(old(replies))
      && sent == old(sent) + [Sent(session, LoginRequest())]
    }

    /** Replaces the session, then posts the credentials; only the body "Ok." is success. */
    method Login() returns (err: Option<Error>)
      modifies this`session, this`replies, this`sent
      ensures Relogged(err)
    {
      session := session + 1;
      var answer := Transmit(LoginRequest());
      err := LoginOutcome(answer);
    }

    /** Creates the client and logs in; a rejected login means no client. */
    static method Connect(root: string, username: string, password: string,
                          server: seq<Response>, parse: string -> Option<Json>, maxAttempts: int := 3)
      returns (r: Result<Client, Error>)
      ensures r.Success? <==> |server| > 0 && server[0].text == LoginOk
      ensures server == [] ==> r == Failure(ConnectionFailed)
      ensures |server| > 0 && server[0].text != LoginOk ==> r == Failure(WrongCredentials)
      ensures r.Success? ==> fresh(r.value)
      ensures r.Success? ==> r.value.url == BaseUrl(root) && r.value.session == 1 && r.value.replies == server[1..]
      ensures r.Success? ==> r.value.username == username && r.value.password == password
      ensures r.Success? ==> r.value.maxAttempts == maxAttempts && r.value.parse == parse
      ensures r.Success? ==> r.value.sent == [Sent(1, r.value.LoginRequest())]
    {
      var c := new Client(root, username, password, server, parse, maxAttempts);
      var err := c.Login();
      if err.Some? {
        r := Failure(err.value);
      } else {
        r := Success(c);
      }
    }

    /** The username setter: changes the username only, then logs in. */
    method SetUsername(value: string) returns (err: Option<Error>)
      modifies this
      ensures username == value && password == old(password)
      ensures Relogged(err)
    {
      username := value;
      err := Login();
    }

    /** The password setter: changes the password only, then logs in. */
    method SetPassword(value: string) returns (err: Option<Error>)
      modifies this
      ensures password == value && username == old(username)
      ensures Relogged(err)
    {
      password := value;
      err := Login();
    }

    /** Changes both credentials before a single login, so the login sees the new pair. */
    method UpdateCredentials(newUsername: string, newPassword: string) returns (err: Option<Error>)
      modifies this
      ensures username == newUsername && password == newPassword
      ensures Relogged(err)
      ensures sent[|sent| - 1].request.form == map["username" := Str(newUsername), "password" := Str(newPassword)]
    {
      username := newUsername;
      password := newPassword;
      err := Login();
    }

    /**
     * A call of `req` with bounded re-login: the outcome, session, answers left and
     * calls issued are those of the reference definition `Call`, and the calls issued
     * alternate between `req` itself and the login request, each retry on the session
     * the login before it opened.
     */
    twostate predicate Dispatched(req: HttpRequest, new r: Result<Payload, Error>)
      reads this
    {
      Finished(req, Call(old(replies), 0, maxAttempts, req.url, parse), old(sent), old(session), r)
    }

    /** The state once the call whose whole trace is `whole` has returned `r`. */
    predicate Finished(req: HttpRequest, whole: Trace, sent0: seq<Sent>, session0: nat,
                       r: Result<Payload, Error>)
      reads this
    {
      && r == whole.outcome
      && session == session0 + whole.logins
      && replies == whole.rest
      && sent == sent0 + Exchanges(req, LoginRequest(), session0, whole.requests + whole.logins)
    }

    /** The state before attempt number `attempt` of the call whose whole trace is `whole`. */
    predicate Midway(req: HttpRequest, attempt: nat, whole: Trace, sent0: seq<Sent>, session0: nat)
      reads this
    {
      && whole == After(attempt, Call(replies, attempt, maxAttempts, req.url, parse))
      && session == session0 + attempt
      && sent == sent0 + Exchanges(req, LoginRequest(), session0, 2 * attempt)
    }

    /**
     * One attempt of `req`: send it and, when the answer is a 403 within the budget,
     * log in again. `None` means the request is to be sent again with `attempt + 1`.
     */
    method Attempt(req: HttpRequest, attempt: nat, ghost whole: Trace, ghost sent0: seq<Sent>,
                   ghost session0: nat)
      returns (done: Option<Result<Payload, Error>>)
      requires Midway(req, attempt, whole, sent0, session0)
      modifies this`session, this`replies, this`sent
      ensures done.Some? ==> Finished(req, whole, sent0, session0, done.value)
      ensures done.None? ==> Midway(req, attempt + 1, whole, sent0, session0) && |replies| < |old(replies)|
    {
      ghost var before, login := replies, LoginRequest();
      ExchangesStep(req, login, session0, attempt);
      var answer := Transmit(req);
      if answer.None? {
        assert Call(before, attempt, maxAttempts, req.url, parse) == Trace(Failure(ConnectionFailed), 1, 0, []);
        done := Some(Failure(ConnectionFailed));
      } else if Retries(answer.value.status, attempt, maxAttempts) {
        var err := Login();
        if err.Some? {
          assert Call(before, attempt, maxAttempts, req.url, parse) == Trace(Failure(err.value), 1, 1, replies);
          done := Some(Failure(err.value));
        } else {
          RetryStep(before, attempt, maxAttempts, req.url, parse);
          done := None;
        }
      } else {
        assert Call(before, attempt, maxAttempts, req.url, parse)
            == Trace(Normalise(answer.value, req.url, parse), 1, 0, replies);
        done := Some(Normalise(answer.value, req.url, parse));
      }
    }

    /** `_request` (and `_get`, `_post` through `verb`): the 403 recursion as a loop. */
    method Request(endpoint: string, verb: Verb, form: Form, files: map<string, Upload>)
      returns (r: Result<Payload, Error>)
      modifies this`session, this`replies, this`sent
      ensures Dispatched(HttpRequest(url + endpoint, verb, form, files), r)
    {
      var req := HttpRequest(url + endpoint, verb, form, files);
      ghost var sent0, session0 := sent, session;
      ghost var whole := Call(replies, 0, maxAttempts, req.url, parse);
      var attempt: nat := 0;
      while true
        invariant Midway(req, attempt, whole, sent0, session0)
        decreases |replies|
      {
        var done := Attempt(req, attempt, whole, sent0, session0);
        if done.Some? {
          return done.value;
        }
        attempt := attempt + 1;
      }
    }

    /** `torrents`: the filters, with `status` sent as `filter`, as a GET of the torrent list. */
    method Torrents(filters: seq<(string, Arg)>) returns (r: Result<Payload, Error>)
      modifies this`session, this`replies, this`sent
      ensures Dispatched(HttpRequest(url + "torrents/info", Get, FilterParams(filters), map[]), r)
    {
      var params := TorrentsParams(filters);
      r := Request("torrents/info", Get, params, map[]);
    }

    /** `download_from_link`: the mapped options as a multipart POST with a placeholder part. */
    method DownloadFromLink(link: Links, kwargs: Form) returns (r: Result<Payload, Error>)
      modifies this`session, this`replies, this`sent
      ensures Dispatched(HttpRequest(url + "torrents/add", Post, LinkOptions(link, kwargs), map["_dummy" := Placeholder]), r)
    {
      r := Request("torrents/add", Post, LinkOptions(link, kwargs), map["_dummy" := Placeholder]);
    }

    /** `download_from_file`: the mapped options with one upload part per file. */
    method DownloadFromFile(files: Files, kwargs: Form) returns (r: Result<Payload, Error>)
      modifies this`session, this`replies, this`sent
      ensures exists parts :: UploadsOf(files, parts)
                           && Dispatched(HttpRequest(url + "torrents/add", Post, FileOptions(kwargs), parts), r)
    {
      var parts := TorrentFiles(files);
      r := Request("torrents/add", Post, FileOptions(kwargs), parts);
    }

    /** `_delete`: the normalised target and the JSON flag, posted to the delete endpoint. */
    method Delete(target: Target, deleteFiles: bool) returns (r: Result<Payload, Error>)
      modifies this`session, this`replies, this`sent
      ensures Dispatched(HttpRequest(url + "torrents/delete", Post, DeleteForm(target, deleteFiles), map[]), r)
    {
      r := Request("torrents/delete", Post, DeleteForm(target, deleteFiles), map[]);
    }

    /** `set_file_priority`: invalid arguments fail before anything is sent. */
    method SetFilePriority(hash: string, fileId: Arg, priority: Arg) returns (r: Result<Payload, Error>)
      modifies this`session, this`replies, this`sent
      ensures FilePriorityForm(hash, fileId, priority).Failure? ==>
        && r == Failure(FilePriorityForm(hash, fileId, priority).error)
        && sent == old(sent) && replies == old(replies) && session == old(session)
      ensures FilePriorityForm(hash, fileId, priority).Success? ==>
        Dispatched(HttpRequest(url + "torrents/filePrio", Post, FilePriorityForm(hash, fileId, priority).value, map[]), r)
    {
      var checked := FilePriorityForm(hash, fileId, priority);
      match checked
      case Failure(e) =>
        r := Failure(e);
      case Success(data) =>
        r := Request("torrents/filePrio", Post, data, map[]);
    }
  }
}
