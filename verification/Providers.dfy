/** The two native providers a shell may launch. */
module Providers {
  datatype Provider = Codex | OpenCode
}
