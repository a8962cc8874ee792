/**
 * pkg/azure/client/helper.go: classification of the Azure client libraries' error values and
 * resolution of the Azure cloud (realm) a bucket lives in.
 */
module AzureClientHelper {
  import opened Wrappers
  import opened Strings

  // ---------------------------------------------------------------------------------------------
  // Error classification
  // ---------------------------------------------------------------------------------------------

  /** http.StatusNotFound and http.StatusUnauthorized */
  const StatusNotFound: int := 404
  const StatusUnauthorized: int := 401

  /** An *http.Response, reduced to its status code. */
  datatype HttpResponse = HttpResponse(statusCode: int)

  /** A value of Go type interface{}: an int, or anything else. */
  datatype Dynamic = IntValue(value: int) | NonIntValue

  /**
   * The error values that reach the classifier:
   *  - DetailedError: autorest.DetailedError of the legacy client, whose StatusCode is an
   *    interface{} and whose Response may be nil; it unwraps to its Original error;
   *  - ResponseError: *azcore.ResponseError of the current SDK;
   *  - CallErr: the MSAL library's errors.CallErr, whose Resp may be nil;
   *  - AuthenticationFailedError: *azidentity.AuthenticationFailedError;
   *  - Wrapped: any wrapper that unwraps to an inner error (fmt.Errorf with %w);
   *  - OtherError: every other error.
   */
  datatype Error =
    | DetailedError(statusCode: Dynamic, response: Option<HttpResponse>, original: Option<Error>)
    | ResponseError(responseStatusCode: int)
    | CallErr(resp: Option<HttpResponse>)
    | AuthenticationFailedError
    | Wrapped(inner: Error)
    | OtherError(message: string)

  /** x is err itself or is reached from err by repeated unwrapping (the chain errors.As walks). */
  ghost predicate OnChain(x: Error, err: Error)
    decreases err
  {
    x == err ||
    match err
    case Wrapped(inner) => OnChain(x, inner)
    case DetailedError(_, _, Some(original)) => OnChain(x, original)
    case _ => false
  }

  /** The unwrap chain is a list: it holds at most one CallErr, since a CallErr unwraps no further. */
  lemma {:induction false} OnChainSingleCallErr(a: Option<HttpResponse>, b: Option<HttpResponse>, err: Error)
    requires OnChain(CallErr(a), err) && OnChain(CallErr(b), err)
    ensures a == b
    decreases err
  {
    match err
    case Wrapped(inner) => OnChainSingleCallErr(a, b, inner);
    case DetailedError(_, _, Some(original)) => OnChainSingleCallErr(a, b, original);
    case _ =>
  }

  /** errors.As(err, &azerrors.CallErr{}): the Resp of the CallErr on err's chain, if there is one. */
  function AsCallErr(err: Error): (r: Option<Option<HttpResponse>>)
    ensures r.Some? ==> OnChain(CallErr(r.value), err)
    ensures r.None? ==> forall resp :: !OnChain(CallErr(resp), err)
    decreases err
  {
    match err
    case CallErr(resp) => Some(resp)
    case Wrapped(inner) => AsCallErr(inner)
    case DetailedError(_, _, Some(original)) => AsCallErr(original)
    case _ => None
  }

  /** errors.As(err, &inErr) for *azidentity.AuthenticationFailedError. */
  function AsAuthenticationFailed(err: Error): (r: bool)
    ensures r <==> OnChain(AuthenticationFailedError, err)
    decreases err
  {
    match err
    case AuthenticationFailedError => true
    case Wrapped(inner) => AsAuthenticationFailed(inner)
    case DetailedError(_, _, Some(original)) => AsAuthenticationFailed(original)
    case _ => false
  }

  /**
   * isAzureAPIStatusError: the type switch on err itself, then errors.As for a CallErr. A match is
   * always backed by the error itself or a CallErr on its chain carrying the status (the converse is
   * StatusErrorCharacterised).
   */
  predicate IsAzureAPIStatusError(err: Error, status: int)
    ensures IsAzureAPIStatusError(err, status) ==>
      CarriesStatus(err, status) || exists resp :: OnChain(CallErr(resp), err) && CarriesStatus(CallErr(resp), status)
  {
    var direct :=
      match err
      case DetailedError(code, response, _) =>
        (code.IntValue? && code.value == status) || (response.Some? && response.value.statusCode == status)
      case ResponseError(code) => code == status
      case _ => false;
    direct ||
    match AsCallErr(err)
    case Some(resp) => resp.Some? && resp.value.statusCode == status
    case None => false
  }

  /** The status codes an error value carries in its own fields, whatever its shape. */
  predicate CarriesStatus(x: Error, status: int) {
    match x
    case DetailedError(code, response, _) =>
      code == IntValue(status) || response == Some(HttpResponse(status))
    case ResponseError(code) => code == status
    case CallErr(resp) => resp == Some(HttpResponse(status))
    case _ => false
  }

  /**
   * A status matches exactly when the error itself, or a CallErr found by unwrapping it, carries
   * that status. A legacy or current-SDK error that is only reached by unwrapping is not inspected.
   */
  lemma StatusErrorCharacterised(err: Error, status: int)
    ensures IsAzureAPIStatusError(err, status) <==>
      (CarriesStatus(err, status) ||
       exists resp :: OnChain(CallErr(resp), err) && CarriesStatus(CallErr(resp), status))
  {
    if CarriesStatus(err, status) && err.CallErr? {
      assert AsCallErr(err) == Some(err.resp);
    }
    if exists resp :: OnChain(CallErr(resp), err) && CarriesStatus(CallErr(resp), status) {
      var resp :| OnChain(CallErr(resp), err) && CarriesStatus(CallErr(resp), status);
      var found := AsCallErr(err);
      OnChainSingleCallErr(found.value, resp, err);
    }
  }

  /** Every match is backed by some error on the chain that carries the status. */
  lemma StatusErrorIsSound(err: Error, status: int)
    requires IsAzureAPIStatusError(err, status)
    ensures exists x :: OnChain(x, err) && CarriesStatus(x, status)
  {
    StatusErrorCharacterised(err, status);
    if CarriesStatus(err, status) {
      assert OnChain(err, err);
    }
  }

  /** A CallErr with a nil Resp on the chain of an error that is not itself a legacy or SDK error matches no status. */
  lemma NilCallErrResponseMatchesNothing(err: Error, status: int)
    requires OnChain(CallErr(None), err)
    requires !err.DetailedError? && !err.ResponseError?
    ensures !IsAzureAPIStatusError(err, status)
  {
    OnChainSingleCallErr(AsCallErr(err).value, None, err);
  }

  /** Errors of an unrecognised shape, and authentication failures, match no status. */
  lemma UnrecognisedErrorsMatchNothing(message: string, status: int)
    ensures !IsAzureAPIStatusError(OtherError(message), status)
    ensures !IsAzureAPIStatusError(Wrapped(OtherError(message)), status)
    ensures !IsAzureAPIStatusError(AuthenticationFailedError, status)
  {
  }

  /** The type switch does not unwrap: a wrapped SDK error is not classified by its status. */
  lemma WrappedResponseErrorIsNotClassified(status: int)
    ensures IsAzureAPIStatusError(ResponseError(status), status)
    ensures !IsAzureAPIStatusError(Wrapped(ResponseError(status)), status)
  {
  }

  /**
   * IsAzureAPINotFoundError: the error itself carries 404, or a CallErr found by unwrapping it
   * answered 404.
   */
  predicate IsAzureAPINotFoundError(err: Error)
    ensures IsAzureAPINotFoundError(err) <==>
      (CarriesStatus(err, StatusNotFound) ||
       exists resp :: OnChain(CallErr(resp), err) && CarriesStatus(CallErr(resp), StatusNotFound))
  {
    StatusErrorCharacterised(err, StatusNotFound);
    IsAzureAPIStatusError(err, StatusNotFound)
  }

  /**
   * IsAzureAPIUnauthorized: the error itself carries 401, or a CallErr found by unwrapping it
   * answered 401, or an authentication failure is anywhere on its chain.
   */
  predicate IsAzureAPIUnauthorized(err: Error)
    ensures IsAzureAPIUnauthorized(err) <==>
      (CarriesStatus(err, StatusUnauthorized) ||
       (exists resp :: OnChain(CallErr(resp), err) && CarriesStatus(CallErr(resp), StatusUnauthorized)) ||
       OnChain(AuthenticationFailedError, err))
  {
    StatusErrorCharacterised(err, StatusUnauthorized);
    IsAzureAPIStatusError(err, StatusUnauthorized) || AsAuthenticationFailed(err)
  }

  /** FilterNotFoundError: nil stays nil, a not-found error becomes nil, any other error is kept. */
  function FilterNotFoundError(err: Option<Error>): (r: Option<Error>)
    ensures r.None? <==> (err.None? || IsAzureAPINotFoundError(err.value))
    ensures r.Some? ==> r == err
  {
    if err.None? then None
    else if IsAzureAPINotFoundError(err.value) then None
    else err
  }

  /** Filtering twice filters no more than filtering once. */
  lemma FilterNotFoundErrorIdempotent(err: Option<Error>)
    ensures FilterNotFoundError(FilterNotFoundError(err)) == FilterNotFoundError(err)
  {
  }

  /**
   * Not-found errors of the legacy and the current SDK shape, and of an MSAL call found by
   * unwrapping, are filtered out; other errors pass through unchanged. A legacy error without a
   * status of its own is not found exactly when the MSAL call under it answered 404.
   */
  lemma FilterNotFoundErrorExamples(original: Error)
    ensures FilterNotFoundError(Some(ResponseError(StatusNotFound))).None?
    ensures FilterNotFoundError(Some(DetailedError(IntValue(StatusNotFound), None, None))).None?
    ensures FilterNotFoundError(Some(DetailedError(NonIntValue, Some(HttpResponse(StatusNotFound)), None))).None?
    ensures FilterNotFoundError(Some(Wrapped(CallErr(Some(HttpResponse(StatusNotFound)))))).None?
    ensures FilterNotFoundError(Some(DetailedError(NonIntValue, None, Some(CallErr(Some(HttpResponse(StatusNotFound))))))).None?
    ensures FilterNotFoundError(Some(ResponseError(StatusUnauthorized))) == Some(ResponseError(StatusUnauthorized))
    ensures FilterNotFoundError(Some(CallErr(None))) == Some(CallErr(None))
    ensures FilterNotFoundError(Some(DetailedError(NonIntValue, None, Some(original)))).None?
      <==> AsCallErr(original) == Some(Some(HttpResponse(StatusNotFound)))
  {
  }

  // ---------------------------------------------------------------------------------------------
  // Cloud configuration
  // ---------------------------------------------------------------------------------------------

  /** azure.CloudConfiguration: a realm chosen by name. */
  datatype CloudConfiguration = CloudConfiguration(name: string)

  /** The SDK's cloud.Configuration values the core selects between. */
  datatype AzureCloud = AzurePublic | AzureGovernment | AzureChina

  /** The constants of pkg/apis/azure that the resolver reads: region prefix lists and realm names. */
  datatype AzureConstants = AzureConstants(
    govRegionPrefixes: seq<string>,
    chinaRegionPrefixes: seq<string>,
    publicCloudName: string,
    govCloudName: string,
    chinaCloudName: string)

  /** The realm names as spelled in cloudEnvVarNameFromCloudConfiguration. */
  const PublicCloudName := "AzurePublic"
  const GovCloudName := "AzureGovernment"
  const ChinaCloudName := "AzureChina"

  /** The realm names of pkg/apis/azure are the literals the env-var table compares against. */
  predicate StandardNames(k: AzureConstants) {
    k.publicCloudName == PublicCloudName && k.govCloudName == GovCloudName && k.chinaCloudName == ChinaCloudName
  }

  /** Environment-variable names read by the upstream controllers. */
  const PublicCloudEnvVar := "AZUREPUBLICCLOUD"
  const GovCloudEnvVar := "AZUREUSGOVERNMENT"
  const ChinaCloudEnvVar := "AZURECHINACLOUD"

  datatype ConfigError =
    | MissingInput(message: string)
    | UnknownCloudConfigurationName(name: string)

  const MissingConfigurationMessage :=
    "either CloudConfiguration or region must not be nil to determine Azure Cloud configuration"
  const MissingEnvVarInputMessage :=
    "either CloudConfiguration or region must not be nil to determine correct env var name"

  /** hasAnyPrefix: some prefix, lower-cased, is a prefix of the lower-cased string. */
  function HasAnyPrefix(s: string, prefixes: seq<string>): (r: bool)
    ensures r <==> exists i :: 0 <= i < |prefixes| && HasPrefix(ToLower(s), ToLower(prefixes[i]))
  {
    if prefixes == [] then false
    else if HasPrefix(ToLower(s), ToLower(prefixes[0])) then true
    else HasAnyPrefix(s, prefixes[1..])
  }

  /**
   * cloudConfigurationFromRegion: region inference is total and ordered. Any matching government
   * prefix selects the government realm (even if a China prefix matches too), otherwise any matching
   * China prefix selects China, and every other region is public.
   */
  function CloudConfigurationFromRegion(k: AzureConstants, region: string): (r: CloudConfiguration)
    ensures (exists i :: 0 <= i < |k.govRegionPrefixes| && HasPrefix(ToLower(region), ToLower(k.govRegionPrefixes[i])))
      ==> r.name == k.govCloudName
    ensures (forall i :: 0 <= i < |k.govRegionPrefixes| ==> !HasPrefix(ToLower(region), ToLower(k.govRegionPrefixes[i])))
      && (exists i :: 0 <= i < |k.chinaRegionPrefixes| && HasPrefix(ToLower(region), ToLower(k.chinaRegionPrefixes[i])))
      ==> r.name == k.chinaCloudName
    ensures (forall i :: 0 <= i < |k.govRegionPrefixes| ==> !HasPrefix(ToLower(region), ToLower(k.govRegionPrefixes[i])))
      && (forall i :: 0 <= i < |k.chinaRegionPrefixes| ==> !HasPrefix(ToLower(region), ToLower(k.chinaRegionPrefixes[i])))
      ==> r.name == k.publicCloudName
  {
    if HasAnyPrefix(region, k.govRegionPrefixes) then CloudConfiguration(k.govCloudName)
    else if HasAnyPrefix(region, k.chinaRegionPrefixes) then CloudConfiguration(k.chinaCloudName)
    else CloudConfiguration(k.publicCloudName)
  }

  /** Region inference ignores the case of the region. */
  lemma RegionResolutionIgnoresCase(k: AzureConstants, region: string)
    ensures CloudConfigurationFromRegion(k, ToLower(region)) == CloudConfigurationFromRegion(k, region)
  {
    ToLowerIdempotent(region);
  }

  /** CloudConfiguration: an explicit configuration wins, else the region decides, else an error. */
  function ResolveCloudConfiguration(k: AzureConstants, cloudConfiguration: Option<CloudConfiguration>, region: Option<string>)
    : (r: Result<CloudConfiguration, ConfigError>)
    ensures cloudConfiguration.Some? ==> r == Ok(cloudConfiguration.value)
    ensures cloudConfiguration.None? && region.Some? ==> r == Ok(CloudConfigurationFromRegion(k, region.value))
    ensures r.Err? <==> cloudConfiguration.None? && region.None?
  {
    if cloudConfiguration.Some? then Ok(cloudConfiguration.value)
    else if region.Some? then Ok(CloudConfigurationFromRegion(k, region.value))
    else Err(MissingInput(MissingConfigurationMessage))
  }

  /**
   * AzureCloudConfigurationFromCloudConfiguration: nil is public; a name fails exactly when it
   * matches none of the three realm names ignoring case, and the error names it.
   */
  function AzureCloudFromCloudConfiguration(k: AzureConstants, cloudConfiguration: Option<CloudConfiguration>)
    : (r: Result<AzureCloud, ConfigError>)
    ensures cloudConfiguration.None? ==> r == Ok(AzurePublic)
    ensures r.Err? <==>
      (cloudConfiguration.Some? &&
       !EqualFold(cloudConfiguration.value.name, k.publicCloudName) &&
       !EqualFold(cloudConfiguration.value.name, k.govCloudName) &&
       !EqualFold(cloudConfiguration.value.name, k.chinaCloudName))
    ensures r.Err? ==> r.error == UnknownCloudConfigurationName(cloudConfiguration.value.name)
    ensures cloudConfiguration.Some? && EqualFold(cloudConfiguration.value.name, k.publicCloudName) ==> r == Ok(AzurePublic)
    ensures r == Ok(AzureGovernment) ==> cloudConfiguration.Some? && EqualFold(cloudConfiguration.value.name, k.govCloudName)
    ensures r == Ok(AzureChina) ==> cloudConfiguration.Some? && EqualFold(cloudConfiguration.value.name, k.chinaCloudName)
  {
    if cloudConfiguration.None? then Ok(AzurePublic)
    else
      var name := cloudConfiguration.value.name;
      if EqualFold(name, k.publicCloudName) then Ok(AzurePublic)
      else if EqualFold(name, k.govCloudName) then Ok(AzureGovernment)
      else if EqualFold(name, k.chinaCloudName) then Ok(AzureChina)
      else Err(UnknownCloudConfigurationName(name))
  }

  /**
   * AzureCloudConfiguration: resolve, then look the realm up in the SDK table. It fails with the
   * missing-input error exactly when both inputs are nil; any other failure is an unknown name.
   */
  function AzureCloudConfiguration(k: AzureConstants, cloudConfiguration: Option<CloudConfiguration>, region: Option<string>)
    : (r: Result<AzureCloud, ConfigError>)
    ensures (r.Err? && r.error.MissingInput?) <==> (cloudConfiguration.None? && region.None?)
    ensures r.Err? ==> r.error == MissingInput(MissingConfigurationMessage) || r.error.UnknownCloudConfigurationName?
  {
    match ResolveCloudConfiguration(k, cloudConfiguration, region)
    case Err(e) => Err(e)
    case Ok(conf) => AzureCloudFromCloudConfiguration(k, Some(conf))
  }

  /**
   * With the standard realm names: nil is public, a name equal to one of the three realm names
   * ignoring case selects that SDK cloud, and any other name fails naming it.
   */
  lemma AzureCloudTable(k: AzureConstants, name: string)
    requires StandardNames(k)
    ensures AzureCloudFromCloudConfiguration(k, None) == Ok(AzurePublic)
    ensures EqualFold(name, PublicCloudName) ==>
      AzureCloudFromCloudConfiguration(k, Some(CloudConfiguration(name))) == Ok(AzurePublic)
    ensures EqualFold(name, GovCloudName) ==>
      AzureCloudFromCloudConfiguration(k, Some(CloudConfiguration(name))) == Ok(AzureGovernment)
    ensures EqualFold(name, ChinaCloudName) ==>
      AzureCloudFromCloudConfiguration(k, Some(CloudConfiguration(name))) == Ok(AzureChina)
    ensures !EqualFold(name, PublicCloudName) && !EqualFold(name, GovCloudName) && !EqualFold(name, ChinaCloudName)
      ==> AzureCloudFromCloudConfiguration(k, Some(CloudConfiguration(name))) == Err(UnknownCloudConfigurationName(name))
  {
    RealmNamesDistinct(name);
  }

  /**
   * cloudEnvVarNameFromCloudConfiguration: one of the three realm variables; a name fails exactly
   * when it matches none of the three realm names ignoring case, and the error names it.
   */
  function CloudEnvVarNameFromCloudConfiguration(cloudConfiguration: Option<CloudConfiguration>)
    : (r: Result<string, ConfigError>)
    ensures r.Ok? ==> r.value == PublicCloudEnvVar || r.value == GovCloudEnvVar || r.value == ChinaCloudEnvVar
    ensures r.Err? <==>
      (cloudConfiguration.Some? &&
       !EqualFold(cloudConfiguration.value.name, PublicCloudName) &&
       !EqualFold(cloudConfiguration.value.name, GovCloudName) &&
       !EqualFold(cloudConfiguration.value.name, ChinaCloudName))
    ensures r.Err? ==> r.error == UnknownCloudConfigurationName(cloudConfiguration.value.name)
  {
    if cloudConfiguration.None? then Ok(PublicCloudEnvVar)
    else
      var name := cloudConfiguration.value.name;
      if EqualFold(name, PublicCloudName) then Ok(PublicCloudEnvVar)
      else if EqualFold(name, GovCloudName) then Ok(GovCloudEnvVar)
      else if EqualFold(name, ChinaCloudName) then Ok(ChinaCloudEnvVar)
      else Err(UnknownCloudConfigurationName(name))
  }

  /**
   * AzureCloudEnvVarName: explicit configuration first, then the region, else an error. It fails with
   * its missing-input error exactly when both inputs are nil; any other failure is an unknown name.
   */
  function AzureCloudEnvVarName(k: AzureConstants, cloudConfiguration: Option<CloudConfiguration>, region: Option<string>)
    : (r: Result<string, ConfigError>)
    ensures (r.Err? && r.error.MissingInput?) <==> (cloudConfiguration.None? && region.None?)
    ensures r.Err? ==> r.error == MissingInput(MissingEnvVarInputMessage) || r.error.UnknownCloudConfigurationName?
  {
    if cloudConfiguration.Some? then CloudEnvVarNameFromCloudConfiguration(cloudConfiguration)
    else if region.Some? then CloudEnvVarNameFromCloudConfiguration(Some(CloudConfigurationFromRegion(k, region.value)))
    else Err(MissingInput(MissingEnvVarInputMessage))
  }

  /** AzureCloudConfiguration: an explicit configuration wins over the region; with neither it fails. */
  lemma AzureCloudConfigurationPrecedence(k: AzureConstants, cloudConfiguration: Option<CloudConfiguration>, region: Option<string>)
    ensures cloudConfiguration.Some? ==>
      AzureCloudConfiguration(k, cloudConfiguration, region) == AzureCloudFromCloudConfiguration(k, cloudConfiguration)
    ensures cloudConfiguration.None? && region.Some? ==>
      AzureCloudConfiguration(k, cloudConfiguration, region)
        == AzureCloudFromCloudConfiguration(k, Some(CloudConfigurationFromRegion(k, region.value)))
    ensures cloudConfiguration.None? && region.None? ==>
      AzureCloudConfiguration(k, cloudConfiguration, region) == Err(MissingInput(MissingConfigurationMessage))
  {
  }

  /** AzureCloudEnvVarName: an explicit configuration wins over the region; with neither it fails. */
  lemma EnvVarNamePrecedence(k: AzureConstants, cloudConfiguration: Option<CloudConfiguration>, region: Option<string>)
    ensures cloudConfiguration.Some? ==>
      AzureCloudEnvVarName(k, cloudConfiguration, region) == CloudEnvVarNameFromCloudConfiguration(cloudConfiguration)
    ensures cloudConfiguration.None? && region.Some? ==>
      AzureCloudEnvVarName(k, cloudConfiguration, region)
        == CloudEnvVarNameFromCloudConfiguration(Some(CloudConfigurationFromRegion(k, region.value)))
    ensures cloudConfiguration.None? && region.None? ==>
      AzureCloudEnvVarName(k, cloudConfiguration, region) == Err(MissingInput(MissingEnvVarInputMessage))
  {
  }

  /** The environment variable that belongs to each SDK cloud. */
  function EnvVarOf(cloud: AzureCloud): string {
    match cloud
    case AzurePublic => PublicCloudEnvVar
    case AzureGovernment => GovCloudEnvVar
    case AzureChina => ChinaCloudEnvVar
  }

  /** The three realm names are pairwise different even ignoring case (their lengths differ). */
  lemma RealmNamesDistinct(name: string)
    ensures EqualFold(name, PublicCloudName) ==> !EqualFold(name, GovCloudName) && !EqualFold(name, ChinaCloudName)
    ensures EqualFold(name, GovCloudName) ==> !EqualFold(name, ChinaCloudName)
  {
  }

  /**
   * With the standard realm names the two tables agree: for every input, the env-var name and the
   * SDK cloud either both fail with the same error or name the same realm.
   */
  lemma EnvVarAgreesWithAzureCloud(k: AzureConstants, cloudConfiguration: Option<CloudConfiguration>, region: Option<string>)
    requires StandardNames(k)
    ensures AzureCloudEnvVarName(k, cloudConfiguration, region).Ok? == AzureCloudConfiguration(k, cloudConfiguration, region).Ok?
    ensures AzureCloudConfiguration(k, cloudConfiguration, region).Ok? ==>
      AzureCloudEnvVarName(k, cloudConfiguration, region).value == EnvVarOf(AzureCloudConfiguration(k, cloudConfiguration, region).value)
    ensures AzureCloudConfiguration(k, cloudConfiguration, region).Err? ==>
      AzureCloudEnvVarName(k, cloudConfiguration, region).error.UnknownCloudConfigurationName?
        == AzureCloudConfiguration(k, cloudConfiguration, region).error.UnknownCloudConfigurationName?
    ensures (AzureCloudConfiguration(k, cloudConfiguration, region).Err? &&
             AzureCloudConfiguration(k, cloudConfiguration, region).error.UnknownCloudConfigurationName?) ==>
        AzureCloudEnvVarName(k, cloudConfiguration, region).error == AzureCloudConfiguration(k, cloudConfiguration, region).error
  {
  }

  /** With the standard realm names, a region alone always resolves: neither table can fail. */
  lemma RegionOnlyNeverFails(k: AzureConstants, region: string)
    requires StandardNames(k)
    ensures AzureCloudConfiguration(k, None, Some(region)).Ok?
    ensures AzureCloudEnvVarName(k, None, Some(region)).Ok?
  {
  }

  /** The env-var table ignores the case of the realm name. */
  lemma EnvVarNameIgnoresCase(name: string)
    ensures CloudEnvVarNameFromCloudConfiguration(Some(CloudConfiguration(ToLower(name)))).Ok?
      == CloudEnvVarNameFromCloudConfiguration(Some(CloudConfiguration(name))).Ok?
    ensures CloudEnvVarNameFromCloudConfiguration(Some(CloudConfiguration(name))).Ok? ==>
      CloudEnvVarNameFromCloudConfiguration(Some(CloudConfiguration(ToLower(name))))
        == CloudEnvVarNameFromCloudConfiguration(Some(CloudConfiguration(name)))
  {
    EqualFoldIgnoresCase(name, PublicCloudName);
    EqualFoldIgnoresCase(name, GovCloudName);
    EqualFoldIgnoresCase(name, ChinaCloudName);
  }

  /**
   * The env-var table: nil is public, a name equal to one of the three realm names ignoring case
   * selects that realm's variable, and any other name is an error naming it.
   */
  lemma EnvVarTable(name: string)
    ensures CloudEnvVarNameFromCloudConfiguration(None) == Ok(PublicCloudEnvVar)
    ensures EqualFold(name, PublicCloudName) ==>
      CloudEnvVarNameFromCloudConfiguration(Some(CloudConfiguration(name))) == Ok(PublicCloudEnvVar)
    ensures EqualFold(name, GovCloudName) ==>
      CloudEnvVarNameFromCloudConfiguration(Some(CloudConfiguration(name))) == Ok(GovCloudEnvVar)
    ensures EqualFold(name, ChinaCloudName) ==>
      CloudEnvVarNameFromCloudConfiguration(Some(CloudConfiguration(name))) == Ok(ChinaCloudEnvVar)
    ensures !EqualFold(name, PublicCloudName) && !EqualFold(name, GovCloudName) && !EqualFold(name, ChinaCloudName) ==>
      CloudEnvVarNameFromCloudConfiguration(Some(CloudConfiguration(name))) == Err(UnknownCloudConfigurationName(name))
  {
    RealmNamesDistinct(name);
  }
}
