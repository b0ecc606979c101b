/**
 * The collaborators the middleware consumes but does not implement: the binding
 * store of the controller library and the key thumbprint of the crypto library.
 */
module Controller {
  import opened Wrappers

  /** A public key (a JSON web key); its contents matter only through its thumbprint. */
  datatype PublicKey = PublicKey(jwk: string)

  type Thumbprint = string

  /** `crypto.Thumbprint`: a deterministic fingerprint of a key, otherwise unknown. */
  type ThumbprintFunction = PublicKey -> Thumbprint

  /** The trust domain a binding belongs to, identified by its public key. */
  datatype Realm = Realm(publicKey: PublicKey)

  /** A tenant configuration: its realm and the roles that administer it. */
  datatype Binding = Binding(realm: Realm, adminRoles: seq<string>)

  /** The signed payload of a mandate; only its role is inspected here. */
  datatype MandateDocument = MandateDocument(role: string)

  /** A mandate whose signature was checked upstream, together with the key that signed it. */
  datatype AuthenticatedMandate = AuthenticatedMandate(mandate: MandateDocument, signer: PublicKey)

  /** `BindingService.Get`: resolves a binding identifier or reports a lookup error. */
  type BindingService = string -> Result<Binding>
}
