/** The remote object store (boto3's S3 client), reduced to the answers it
    gives and a log of the calls made to it. */
module Remote {
  import opened Outcomes

  newtype Byte = b: int | 0 <= b < 256

  /** The answer to one `upload_part` call: the part's ETag, or an error. */
  datatype PartResponse = Accepted(eTag: string) | Rejected(reason: string)

  /** One entry of the list sent to `complete_multipart_upload`. */
  datatype CompletedPart = CompletedPart(eTag: string, partNumber: int)

  /** A call made to the remote store, with the arguments that matter. */
  datatype Call =
    | CreateCall(bucket: string, key: string)
    | ListCall(bucket: string)
    | UploadPartCall(bucket: string, key: string, uploadId: string, partNumber: int, body: seq<Byte>)
    | CompleteCall(bucket: string, key: string, uploadId: string, parts: seq<CompletedPart>)

  /** True iff `c` sends a part or finishes a session, i.e. changes the remote object. */
  predicate Uploads(c: Call)
  {
    c.UploadPartCall? || c.CompleteCall?
  }

  class S3Client {
    /** Every call made so far, oldest first. */
    var calls: seq<Call>
    /** The upload id the store hands out on the next `create_multipart_upload`. */
    const nextUploadId: string
    /** The `Uploads` ids of `list_multipart_uploads` per bucket; None when the
        response has no `Uploads` entry. */
    const listing: string -> Option<seq<string>>
    /** The store's answer to uploading a given part number with a given body. */
    const respond: (int, seq<Byte>) -> PartResponse

    constructor (nextUploadId: string, listing: string -> Option<seq<string>>,
                 respond: (int, seq<Byte>) -> PartResponse)
      ensures calls == []
      ensures this.nextUploadId == nextUploadId && this.listing == listing && this.respond == respond
    {
      calls := [];
      this.nextUploadId := nextUploadId;
      this.listing := listing;
      this.respond := respond;
    }

    method CreateMultipartUpload(bucket: string, key: string) returns (uploadId: string)
      modifies this
      ensures uploadId == nextUploadId
      ensures calls == old(calls) + [CreateCall(bucket, key)]
    {
      uploadId := nextUploadId;
      calls := calls + [CreateCall(bucket, key)];
    }

    method ListMultipartUploads(bucket: string) returns (uploads: Option<seq<string>>)
      modifies this
      ensures uploads == listing(bucket)
      ensures calls == old(calls) + [ListCall(bucket)]
    {
      uploads := listing(bucket);
      calls := calls + [ListCall(bucket)];
    }

    method UploadPart(bucket: string, key: string, uploadId: string, partNumber: int, body: seq<Byte>)
      returns (response: PartResponse)
      modifies this
      ensures response == respond(partNumber, body)
      ensures calls == old(calls) + [UploadPartCall(bucket, key, uploadId, partNumber, body)]
    {
      response := respond(partNumber, body);
      calls := calls + [UploadPartCall(bucket, key, uploadId, partNumber, body)];
    }

    method CompleteMultipartUpload(bucket: string, key: string, uploadId: string, parts: seq<CompletedPart>)
      modifies this
      ensures calls == old(calls) + [CompleteCall(bucket, key, uploadId, parts)]
    {
      calls := calls + [CompleteCall(bucket, key, uploadId, parts)];
    }
  }

}
