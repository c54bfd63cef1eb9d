/** The parts of Express's `req` and `res` the core touches: the `token`
    cookie and `req.userId` on the request; status, JSON body and
    `Set-Cookie` headers on the response. */
module Http {
  import opened Base
  import Jwt
  import UserModel
  import TaskModel

  /** The JSON bodies the handlers send. */
  datatype Body =
    | Status(success: bool, message: string)                        // { success, message }
    | WithUser(success: bool, message: string, user: UserModel.PublicUser)
    | Message(message: string)                                      // { message }
    | OneTask(task: TaskModel.Task)
    | Tasks(tasks: seq<TaskModel.Task>)

  datatype CookieOptions = CookieOptions(httpOnly: bool, secure: bool, sameSite: string, maxAge: nat)

  /** A `Set-Cookie` header: a value with its options, or `res.clearCookie`. */
  datatype SetCookie = Issued(value: Jwt.Token, options: CookieOptions) | Cleared

  class Request {
    /** `req.cookies` as parsed by cookie-parser. */
    const cookies: map<string, Jwt.Token>
    /** `req.userId`, written by the session middleware. */
    var userId: Option<UserId>
    /** How many times the middleware called `next()`. */
    var nextCalls: nat

    constructor (cookies: map<string, Jwt.Token>)
      ensures this.cookies == cookies && userId == None && nextCalls == 0
    {
      this.cookies := cookies;
      userId := None;
      nextCalls := 0;
    }

    /** `req.cookies.token`. */
    function TokenCookie(): (t: Option<Jwt.Token>)
      ensures t.Some? <==> "token" in cookies
      ensures t.Some? ==> t.value == cookies["token"]
    {
      if "token" in cookies then Some(cookies["token"]) else None
    }
  }

  class Response {
    var status: int
    var body: Option<Body>
    var cookies: map<string, SetCookie>

    /** A fresh response: Express's default status and nothing sent. */
    constructor ()
      ensures status == 200 && body == None && cookies == map[]
    {
      status := 200;
      body := None;
      cookies := map[];
    }

    /** `res.status(code).json(body)`. */
    method Send(code: int, b: Body)
      modifies this
      ensures status == code && body == Some(b) && cookies == old(cookies)
    {
      status := code;
      body := Some(b);
    }

    /** `res.cookie(name, value, options)`. */
    method Cookie(name: string, value: Jwt.Token, options: CookieOptions)
      modifies this
      ensures cookies == old(cookies)[name := Issued(value, options)]
      ensures status == old(status) && body == old(body)
    {
      cookies := cookies[name := Issued(value, options)];
    }

    /** `res.clearCookie(name)`. */
    method ClearCookie(name: string)
      modifies this
      ensures cookies == old(cookies)[name := Cleared]
      ensures status == old(status) && body == old(body)
    {
      cookies := cookies[name := Cleared];
    }
  }
}
