/** The session descriptor: which remote multipart upload a local file is bound to. */
module MultipartMeta {

  /** `MultipartUploadMeta`: bucket, key, the remote upload id and the part size
      chosen when the session was created. */
  datatype MultipartUploadMeta = MultipartUploadMeta(bucket: string, key: string, uploadId: string, splitSize: int)
}
