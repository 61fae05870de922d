/** The request, response and payload records of app/schemas/models.py. */
module Schemas {

  datatype Attachment = Attachment(name: string, url: string)

  datatype TaskRequest = TaskRequest(
    email: string,
    secret: string,
    task: string,
    round: int,
    nonce: string,
    brief: string,
    checks: seq<string>,
    evaluationUrl: string,
    attachments: seq<Attachment>)

  datatype TaskResponse = TaskResponse(status: string, message: string, task: string)

  datatype EvaluationPayload = EvaluationPayload(
    email: string,
    task: string,
    round: int,
    nonce: string,
    repoUrl: string,
    commitSha: string,
    pagesUrl: string)
}
