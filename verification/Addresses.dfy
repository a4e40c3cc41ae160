/** Accounts and contracts by address. */
module Addresses {

  /** An address, as its rank in byte order: addresses have bounded length, and the
      contracts only compare them and read storage in their order. */
  type Addr = nat
}
