/** The host the installer runs on, as the `target` constants `LINUX`, `MACOS`, `WINDOWS` and `x86_64` describe it. */
module Target {

  datatype Os = Linux | MacOs | Windows | OtherOs(name: string)

  datatype Arch = X86_64 | OtherArch(name: string)

  datatype Host = Host(os: Os, arch: Arch)
}
