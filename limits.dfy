/** The server's fixed configuration (the constants of main.go that the handler uses). */
module Limits {
  /** Capacity of the admission semaphore: batches in progress at once. */
  const MaxClients: nat := 100

  /** Largest number of URLs one request may carry. */
  const MaxUrlsInQuery: nat := 20

  /** Size of the worker pool that serves one batch. */
  const MaxWorker: nat := 4
}
