/** What the two HTTP layers, the Next.js proxy and the FastAPI backend,
    share: a response header. */
module Http {

  /** A response header: its name and its value. */
  datatype Header = Header(name: string, value: string)
}
