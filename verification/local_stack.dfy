/** What is fixed about a stack on this machine. */
module LocalStack {

  const URL := "http://localhost:8080"

  /** Only this machine can reach the gateway, so that its password is no secret. */
  const PASSWORD := "openbuzz"
}
