/** The health route of the HTTP API (api.py), reduced to the one piece of logic it
    holds: the database URI is reported with its instance id and credentials masked. */
module Api {
  import opened Strs

  /** The host suffix of a hosted (Aura) database. */
  const CloudMarker: string := "databases.neo4j.io"
  const SecureScheme: string := "neo4j+s://"
  const PlainScheme: string := "neo4j://"
  const HiddenHost: string := "*****."

  // The two masked forms of a hosted database's URI, secure and plain scheme.
  const MaskedSecure: string := SecureScheme + HiddenHost + CloudMarker
  const MaskedPlain: string := PlainScheme + HiddenHost + CloudMarker

  /** The URI shown by the health check. */
  function MaskUri(uri: string): (r: string)
    ensures Contains(uri, CloudMarker) && StartsWith(FirstPiece(uri, CloudMarker), SecureScheme) ==> r == MaskedSecure
    ensures Contains(uri, CloudMarker) && !StartsWith(FirstPiece(uri, CloudMarker), SecureScheme) ==> r == MaskedPlain
    ensures !Contains(uri, CloudMarker) && '@' in uri ==> r == LastPiece(uri, '@')
    ensures !Contains(uri, CloudMarker) && '@' !in uri ==> r == "localhost"
  {
    ContainsChar(uri, '@');
    if Contains(uri, CloudMarker) then
      (if StartsWith(FirstPiece(uri, CloudMarker), SecureScheme) then MaskedSecure else MaskedPlain)
    else if Contains(uri, "@") then LastPiece(uri, '@')
    else "localhost"
  }

  /** The masked URI never shows a `user:password@` part: it holds no '@', and when it
      comes from the URI itself it is what follows the URI's last '@'. */
  lemma MaskHidesCredentials(uri: string)
    ensures '@' !in MaskUri(uri)
    ensures !Contains(uri, CloudMarker) && '@' in uri ==> EndsWith(uri, MaskUri(uri))
  {
    assert '@' !in SecureScheme && '@' !in PlainScheme && '@' !in HiddenHost && '@' !in CloudMarker;
    assert '@' !in "localhost";
  }

  /** On a hosted database the instance id never shows: the result is one of two fixed texts. */
  lemma MaskHidesInstance(uri: string)
    requires Contains(uri, CloudMarker)
    ensures MaskUri(uri) == MaskedSecure || MaskUri(uri) == MaskedPlain
  {
  }
}
