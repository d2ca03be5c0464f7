/** `POST /api/oauth/register`: adds an account to the user map. */
module Register {
  import opened Wrappers
  import opened Http
  import opened Store

  function Handler(req: Request, st: Stores): (o: Outcome)
    ensures req.verb != "POST" ==> o == Outcome(Json(405, ErrorBody("Method not allowed")), st)
    ensures req.verb == "POST" && !(Present(Find(req.body, "username")) && Present(Find(req.body, "password"))) ==>
              o == Outcome(Json(400, ErrorBody("Username and password are required")), st)
    ensures o.response.status == 409 <==>
              && req.verb == "POST"
              && Present(Find(req.body, "username")) && Present(Find(req.body, "password"))
              && req.body["username"] in Users(st)
    ensures o.response.status == 409 ==>
              && o.response == Json(409, ErrorBody("User already exists"))
              && o.stores == Stores(Some(Users(st)), st.codes)
    ensures o.response.status == 201 <==>
              && req.verb == "POST"
              && Present(Find(req.body, "username")) && Present(Find(req.body, "password"))
              && req.body["username"] !in Users(st)
    ensures o.response.status == 201 ==>
              var users := o.stores.users.GetOr(map[]);
              && o.response == Json(201, SuccessBody())
              && o.stores.codes == st.codes
              && o.stores.users.Some?
              && users.Keys == Users(st).Keys + {req.body["username"]}
              && users[req.body["username"]] == req.body["password"]
              && (forall u :: u in Users(st) ==> users[u] == Users(st)[u])
  {
    var b := req.body;
    if req.verb != "POST" then Outcome(Json(405, ErrorBody("Method not allowed")), st)
    else if !(Present(Find(b, "username")) && Present(Find(b, "password"))) then
      Outcome(Json(400, ErrorBody("Username and password are required")), st)
    else
      var users := Users(st);
      if b["username"] in users then
        Outcome(Json(409, ErrorBody("User already exists")), Stores(Some(users), st.codes))
      else
        Outcome(Json(201, SuccessBody()), Stores(Some(users[b["username"] := b["password"]]), st.codes))
  }
}
