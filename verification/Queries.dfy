/** How a query is decided: first by the mapping, then by the client it leads to. */
module Queries {
  import opened Mappings
  import opened Evaluation

  datatype Error = NotReady(key: Key) | NotFound(key: Key) | UserDecode | Json

  // `server_sdk_repo_string`, `client_sdk_eval_string` and `client_sdk_events_string`.
  datatype Query = ServerRepo(key: Key) | ClientEval(key: Key) | ClientEvents(key: Key)

  datatype Resolution = Refused(error: Error) | Found(server: Key)

  // A verdict names the client that answers, of type C, and the repository it held.
  datatype Verdict<C> = Refuse(error: Error) | Serve(client: C, repo: Repository)

  // The part of a query that reads only the mapping.
  function Resolve(x: Secrets, q: Query): Resolution {
    if x.version == 0 then Refused(NotReady(q.key))
    else
      match q
      case ServerRepo(s) => if s in x.reverse then Found(s) else Refused(NotFound(s))
      case _ => if q.key in x.mapping then Found(x.mapping[q.key]) else Refused(NotFound(q.key))
  }
}
