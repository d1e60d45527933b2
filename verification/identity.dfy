/** Identity and signing: the per-run device id, its keyed hash, and the request headers. */
module Identity {
  import opened Api

  /** The fixed shared secret appended to the device id before hashing. */
  const PEPPER: string := "merci,votrecommandeabienetepriseencompte#jejoueautennis&TupeuxpasToast!@burritoking5console.log(Oups,uneerreurestsurvenue)"

  /** The fixed header set every request carries. */
  const API_HEADERS: Headers := map[
    "Host" := "webapi.burgerking.fr",
    "Accept" := "application/json, text/plain, */*",
    "x-application" := "WEBSITE",
    "x-version" := "10.19.0",
    "Accept-Language" := "fr-FR,fr;q=0.9",
    "User-Agent" := "Mobile/1639457264 CFNetwork/3826.400.120 Darwin/24.3.0",
    "Connection" := "keep-alive",
    "x-platform" := "APP_IOS",
    "Content-Type" := "application/json"
  ]

  const DEVICE_HEADER: string := "x-device"

  predicate IsLower(c: char) {
    'a' <= c <= 'z'
  }

  /** Upper-casing of one character, on the ASCII letters that a UUID can hold. */
  function UpperChar(c: char): char {
    if IsLower(c) then (c as int - 32) as char else c
  }

  /** The canonical upper-case form of the generated UUID. */
  function ToUpperCase(s: string): (u: string)
    ensures |u| == |s|
    ensures forall i :: 0 <= i < |u| ==> !IsLower(u[i])
    ensures forall i :: 0 <= i < |s| && !IsLower(s[i]) ==> u[i] == s[i]
    ensures forall i :: 0 <= i < |s| && IsLower(s[i]) ==> u[i] as int + 32 == s[i] as int
  {
    seq(|s|, i requires 0 <= i < |s| => UpperChar(s[i]))
  }

  /** Upper-casing an id that is already upper case leaves it unchanged. */
  lemma ToUpperCaseIdempotent(s: string)
    ensures ToUpperCase(ToUpperCase(s)) == ToUpperCase(s)
  {
  }

  /** The request signature: the foreign digest `md5` of the id followed by the secret. */
  function GenerateHash(md5: string -> string, king: string): string {
    md5(king + PEPPER)
  }

  /** With a collision-free digest, the signature identifies the device: two ids get the same
      hash exactly when they are the same id. */
  lemma HashBindsId(md5: string -> string, id1: string, id2: string)
    requires forall m1, m2 :: md5(m1) == md5(m2) ==> m1 == m2
    ensures GenerateHash(md5, id1) == GenerateHash(md5, id2) <==> id1 == id2
  {
    if GenerateHash(md5, id1) == GenerateHash(md5, id2) {
      assert id1 + PEPPER == id2 + PEPPER;
      assert |id1| == |id2|;
      assert id1 == (id1 + PEPPER)[..|id1|];
      assert id2 == (id2 + PEPPER)[..|id2|];
    }
  }

  /** The fixed headers plus the device header carrying this run's id. */
  function CreateDeviceHeaders(deviceId: string): (h: Headers)
    ensures h.Keys == API_HEADERS.Keys + {DEVICE_HEADER}
    ensures h[DEVICE_HEADER] == deviceId
    ensures forall key :: key in API_HEADERS && key != DEVICE_HEADER ==> h[key] == API_HEADERS[key]
  {
    API_HEADERS[DEVICE_HEADER := deviceId]
  }

  /** Two runs' headers differ at most in the device header. */
  lemma DeviceHeadersDifferOnlyInDevice(id1: string, id2: string)
    ensures CreateDeviceHeaders(id1) == CreateDeviceHeaders(id2) <==> id1 == id2
    ensures forall key :: key in CreateDeviceHeaders(id1) && key != DEVICE_HEADER ==>
              CreateDeviceHeaders(id1)[key] == CreateDeviceHeaders(id2)[key]
  {
    if CreateDeviceHeaders(id1) == CreateDeviceHeaders(id2) {
      assert CreateDeviceHeaders(id1)[DEVICE_HEADER] == id1;
    }
  }
}
