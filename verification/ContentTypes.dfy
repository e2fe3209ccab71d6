/** Which content types an upload may carry. */
module ContentTypes {

  /** Never stored, whatever the allowlists say. */
  const DENYLIST: seq<string> := [
    "application/vnd.microsoft.portable-executable", "application/x-msdownload", "application/x-executable",
    "application/x-elf", "application/x-mach-binary", "application/x-dosexec", "application/x-sh",
    "text/x-shellscript", "text/html", "application/xhtml+xml", "image/svg+xml", "text/xml", "application/xml",
    "text/javascript", "application/javascript", "application/ecmascript"
  ]

  predicate IsDenylisted(contentType: string) {
    contentType in DENYLIST
  }

  /** Not denylisted, and on the server's allowlist unless that is empty. */
  predicate MasterAllowed(allowed: seq<string>, contentType: string) {
    !IsDenylisted(contentType) && (allowed == [] || contentType in allowed)
  }

  /** On the policy's list unless that is empty. */
  predicate PolicyAllowed(types: seq<string>, contentType: string) {
    types == [] || contentType in types
  }
}
