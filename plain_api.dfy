/** The earlier API module: `request` fetches the path as given, with no base URL
    (the development server proxies it), and classifies the answer as the
    browser client does. Its three wrappers call the same paths with the same
    options as the client's. */
module PlainApi {
  import opened Wrappers
  import opened Http
  import Api

  /** `request`: the call on the bare path, with the init object built as the
      browser client builds it, and the classification of its answer. */
  function Request(args: RequestArgs, res: HttpResponse, parsed: Option<Json>): (r: Exchange)
    ensures r.call.url == args.path
    ensures r.call.init == FetchInit(args.options)
    ensures args.options.headers.None? ==> r.call.init.headers == DefaultHeaders
    ensures r.outcome == Classify(res, parsed)
  {
    Exchange(Call(args.path, FetchInit(args.options)), Classify(res, parsed))
  }

  /** With the base URL unset, the client fetches the same thing at the default server,
      and both settle the same way. */
  lemma ClientAddsDefaultBase(args: RequestArgs, res: HttpResponse, parsed: Option<Json>)
    ensures Api.Request(None, args, res, parsed).call.url == Api.DefaultBase + Request(args, res, parsed).call.url
    ensures Api.Request(None, args, res, parsed).call.init == Request(args, res, parsed).call.init
    ensures Api.Request(None, args, res, parsed).outcome == Request(args, res, parsed).outcome
  {
  }

  /** The three wrappers of this module pass no headers of their own, so even the
      init as written sends the JSON content type for them. */
  lemma WrappersSendDefaultHeaders(payload: string, institution: string, res: HttpResponse, parsed: Option<Json>)
    ensures Request(Api.RegisterUser(payload), res, parsed).call.init.headers == DefaultHeaders
    ensures Request(Api.LoginUser(payload), res, parsed).call.init.headers == DefaultHeaders
    ensures Request(Api.CounselorsByInstitution(institution), res, parsed).call.init.headers == DefaultHeaders
  {
  }
}
